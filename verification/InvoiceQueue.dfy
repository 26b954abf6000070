/** Mirroring the 1C invoice queue: per-response deduplication, supersession of older tokens, and
    the round of sync followed by processing (src/services/clientOrderInvoiceWorker.ts). */
module InvoiceQueue {
  import opened Options
  import opened InvoiceDelivery

  datatype OnecState = Ready | Stored | Withdrawn | Same(state: InvoiceState)

  datatype Item = Item(order: string, realization: string, token: string, state: OnecState,
                       realizationDeleted: bool, updatedAt: Option<int>, version: int)

  datatype Invoice = Invoice(order: string, realization: string, state: InvoiceState, lease: Option<int>, born: nat)

  /** `born` numbers the rows in creation order; `orders` are the order guids known locally; `calls`
      are the running processInvoice calls. */
  datatype Queue = Queue(
    invoices: map<string, Invoice>, born: nat, orders: set<string>, now: int, calls: map<nat, Handling>)

  /** The token a call has claimed, and whether its closing write is done and only 1C's acknowledgement
      is awaited. */
  datatype Handling = Handling(token: string, acking: bool)

  function Mapped(item: Item): InvoiceState {
    if item.state == Withdrawn || item.state == Same(CANCELLED) || item.realizationDeleted then CANCELLED
    else match item.state
      case Ready => QUEUED
      case Stored => AVAILABLE
      case Withdrawn => CANCELLED
      case Same(s) => s
  }

  predicate SameKey(i: Invoice, j: Invoice) {
    i.order == j.order && i.realization == j.realization
  }

  predicate Ignored(q: Queue, item: Item) {
    item.order == "" || item.realization == "" || item.token == "" || item.order !in q.orders
  }

  predicate Leased(q: Queue, i: Invoice) {
    i.state == SENDING && i.lease.Some? && i.lease.value > q.now
  }

  /** A known token keeps a SENT or leased row unless 1C withdraws it. */
  function Updated(q: Queue, i: Invoice, reported: InvoiceState): Invoice {
    if reported == CANCELLED then i.(state := CANCELLED, lease := None)
    else if i.state == SENT || Leased(q, i) then i
    else i.(state := reported)
  }

  /** The row of another token of the same realization, once a new token arrives. */
  function Displaced(i: Invoice, newcomer: Invoice): Invoice {
    if SameKey(i, newcomer) && Active(i.state) then i.(state := SUPERSEDED, lease := None) else i
  }

  function Mirror(q: Queue, item: Item): Queue {
    if Ignored(q, item) then q
    else if item.token in q.invoices then
      q.(invoices := q.invoices[item.token := Updated(q, q.invoices[item.token], Mapped(item))])
    else
      var newcomer := Invoice(item.order, item.realization, Mapped(item), None, q.born);
      var others := map t | t in q.invoices :: Displaced(q.invoices[t], newcomer);
      q.(invoices := others[item.token := newcomer], born := q.born + 1)
  }

  datatype Event =
    | SyncItem(item: Item)
    | TakeUp(call: nat, token: string, until: int)
    | Close(call: nat, verdict: InvoiceState)   // the unconditional closing write
    | Fail(call: nat)                           // the exception handler's write, also after a failed acknowledgement
    | Withdraw(call: nat)                       // 1C no longer has the candidate
    | Stop(call: nat)                           // the call ends, acknowledged or with its process
    | NewOrder(order: string)
    | Wait(now: int)

  predicate Runs(q: Queue, call: nat) {
    call in q.calls && q.calls[call].token in q.invoices
  }

  /** The conditional update: only a processable row whose lease is free is claimed. */
  function DoClaim(q: Queue, call: nat, token: string, until: int): Queue {
    if call in q.calls || token !in q.invoices || !Processable(q.invoices[token].state)
       || (q.invoices[token].lease.Some? && q.invoices[token].lease.value > q.now)
    then q
    else
      q.(invoices := q.invoices[token := q.invoices[token].(state := SENDING, lease := Some(until))],
         calls := q.calls[call := Handling(token, false)])
  }

  /** A call writes its row. */
  function Written(q: Queue, call: nat, state: InvoiceState): map<string, Invoice>
    requires Runs(q, call)
  {
    var token := q.calls[call].token;
    q.invoices[token := q.invoices[token].(state := state, lease := None)]
  }

  function Step(q: Queue, e: Event): Queue {
    match e
    case SyncItem(item) => Mirror(q, item)
    case TakeUp(call, token, until) => DoClaim(q, call, token, until)
    case Close(call, verdict) =>
      if Runs(q, call) && !q.calls[call].acking && verdict in {AVAILABLE, SENT, PARTIAL, ERROR}
      then q.(invoices := Written(q, call, verdict), calls := q.calls[call := q.calls[call].(acking := true)])
      else q
    case Fail(call) =>
      if !Runs(q, call) then q
      else if q.invoices[q.calls[call].token].state == SUPERSEDED then q.(calls := q.calls - {call})
      else q.(invoices := Written(q, call, ERROR), calls := q.calls - {call})
    case Withdraw(call) =>
      if Runs(q, call) && !q.calls[call].acking
      then q.(invoices := Written(q, call, SUPERSEDED), calls := q.calls - {call})
      else q
    case Stop(call) => q.(calls := q.calls - {call})
    case NewOrder(order) => q.(orders := q.orders + {order})
    case Wait(now) => q.(now := now)
  }

  function Run(q: Queue, events: seq<Event>): Queue {
    if events == [] then q else Step(Run(q, events[..|events| - 1]), events[|events| - 1])
  }

  // ---------------------------------------------------------------- what a report does

  /** The item is complete and its order is known here. */
  predicate Counts(q: Queue, item: Item) {
    item.order in q.orders && "" !in {item.order, item.realization, item.token}
  }

  /** 1C says that there is nothing left to deliver. */
  predicate Withdraws(item: Item) {
    item.realizationDeleted || item.state in {Withdrawn, Same(CANCELLED)}
  }

  /** The state 1C means for an item it does not withdraw. */
  predicate Means(item: Item, state: InvoiceState) {
    || (item.state == Ready && state == QUEUED)
    || (item.state == Stored && state == AVAILABLE)
    || item.state == Same(state)
  }

  /** Being processed by a call whose lease has not run out. */
  predicate InHand(i: Invoice, now: int) {
    i.state == SENDING && i.lease.Some? && i.lease.value > now
  }

  /** A report of a known token changes that row only: a withdrawal always cancels it, a SENT row and one
      in hand keep everything else out, and any other row takes the state reported. */
  lemma KnownTokenIsMirrored(q: Queue, item: Item)
    requires Counts(q, item) && item.token in q.invoices
    ensures var (q', before) := (Step(q, SyncItem(item)), q.invoices[item.token]);
      && item.token in q'.invoices && q' == q.(invoices := q.invoices[item.token := q'.invoices[item.token]])
      && var after := q'.invoices[item.token];
      && after == before.(state := after.state, lease := after.lease)
      && (if Withdraws(item) then after.state == CANCELLED && after.lease == None
          else if before.state == SENT || InHand(before, q.now) then after == before
          else Means(item, after.state) && after.lease == before.lease)
  {
  }

  /** A report of a new token adds its row, takes every active row of the same realization out of
      processing, and touches no other; a report that does not count changes nothing. */
  lemma NewTokenIsMirrored(q: Queue, item: Item)
    requires item.token !in q.invoices
    ensures var q' := Step(q, SyncItem(item));
      if !Counts(q, item) then q' == q
      else
        && q'.invoices.Keys == q.invoices.Keys + {item.token}
        && q' == q.(invoices := q'.invoices, born := q.born + 1)
        && var after := q'.invoices[item.token];
        && after == Invoice(item.order, item.realization, after.state, None, q.born)
        && (if Withdraws(item) then after.state == CANCELLED else Means(item, after.state))
        && (forall t :: t in q.invoices ==>
              var (i, j) := (q.invoices[t], q'.invoices[t]);
              if i.order == item.order && i.realization == item.realization
                 && i.state in {WAITING, QUEUED, SENDING, AVAILABLE, PARTIAL, ERROR}
              then j == i.(state := SUPERSEDED, lease := None)
              else j == i)
  {
  }

  /** The call has won the row. */
  predicate Claims(q: Queue, call: nat, token: string, until: int) {
    var q' := Step(q, TakeUp(call, token, until));
    && call in q'.calls && q'.calls == q.calls[call := Handling(token, false)]
    && token in q.invoices
    && q' == q.(calls := q'.calls,
                invoices := q.invoices[token := q.invoices[token].(state := SENDING, lease := Some(until))])
  }

  /** A new call wins a row exactly when the row waits to be processed and no lease is running. */
  lemma TakeUpWinsIff(q: Queue, call: nat, token: string, until: int)
    requires call !in q.calls
    ensures var winnable := && token in q.invoices
                            && q.invoices[token].state in {QUEUED, SENDING, PARTIAL, ERROR, AVAILABLE}
                            && (q.invoices[token].lease.None? || q.invoices[token].lease.value <= q.now);
      if winnable then Claims(q, call, token, until) else Step(q, TakeUp(call, token, until)) == q
  {
  }

  /** After READY a row is taken up as soon as no lease is running, unless it was SENT already. */
  lemma ReadyIsTakenUp(q: Queue, item: Item, time: int, call: nat, until: int)
    requires Counts(q, item) && item.state == Ready && !item.realizationDeleted && call !in q.calls
    ensures var q1 := Step(Step(q, SyncItem(item)), Wait(time));
      Claims(q1, call, item.token, until)
      <==> (item.token in q.invoices ==>
              && q.invoices[item.token].state != SENT
              && (q.invoices[item.token].lease.Some? ==> q.invoices[item.token].lease.value <= time))
  {
    var q1 := Step(Step(q, SyncItem(item)), Wait(time));
    if item.token in q.invoices { KnownTokenIsMirrored(q, item); } else { NewTokenIsMirrored(q, item); }
    TakeUpWinsIff(q1, call, item.token, until);
    assert q1.calls == q.calls;
  }

  predicate Untouched(q: Queue, token: string) {
    forall c :: c in q.calls ==> q.calls[c].token != token
  }

  predicate OutOfPlay(q: Queue, token: string) {
    token in q.invoices && q.invoices[token].state == CANCELLED && Untouched(q, token)
  }

  lemma StepKeepsOut(q: Queue, e: Event, token: string)
    requires OutOfPlay(q, token) && (e.SyncItem? ==> e.item.token != token || Withdraws(e.item))
    ensures OutOfPlay(Step(q, e), token)
  {
    if e.SyncItem? && Counts(q, e.item) {
      if e.item.token in q.invoices { KnownTokenIsMirrored(q, e.item); } else { NewTokenIsMirrored(q, e.item); }
    }
  }

  /** Once withdrawn while no call works on it, an invoice stays CANCELLED and no call ever wins it,
      whatever happens, until 1C reports the token alive again. */
  lemma {:induction false} WithdrawnStaysOut(q: Queue, item: Item, events: seq<Event>)
    requires Counts(q, item) && Withdraws(item) && Untouched(q, item.token)
    requires forall e :: e in events && e.SyncItem? ==> e.item.token != item.token || Withdraws(e.item)
    ensures OutOfPlay(Run(Step(q, SyncItem(item)), events), item.token)
  {
    if events == [] {
      if item.token in q.invoices { KnownTokenIsMirrored(q, item); } else { NewTokenIsMirrored(q, item); }
    } else {
      var n := |events| - 1;
      assert events[n] in events && forall e :: e in events[..n] ==> e in events;
      WithdrawnStaysOut(q, item, events[..n]);
      StepKeepsOut(Run(Step(q, SyncItem(item)), events[..n]), events[n], item.token);
    }
  }

  // ---------------------------------------------------------------- every way a row changes

  predicate Handles(q: Queue, call: nat, token: string) {
    call in q.calls && q.calls[call].token == token
  }

  /** The call that handles the row has not closed it yet. */
  predicate Works(q: Queue, call: nat, token: string) {
    Handles(q, call, token) && !q.calls[call].acking
  }

  predicate Winnable(q: Queue, token: string) {
    && token in q.invoices && q.invoices[token].state in {QUEUED, SENDING, PARTIAL, ERROR, AVAILABLE}
    && (q.invoices[token].lease.None? || q.invoices[token].lease.value <= q.now)
  }

  /** The report of a new token of the same realization takes this row out of processing. */
  predicate Supersedes(q: Queue, item: Item, token: string)
    requires token in q.invoices
  {
    && Counts(q, item) && item.token !in q.invoices
    && item.order == q.invoices[token].order && item.realization == q.invoices[token].realization
    && q.invoices[token].state in {WAITING, QUEUED, SENDING, AVAILABLE, PARTIAL, ERROR}
  }

  /** What 1C reports about the row reaches it. */
  predicate Reaches(q: Queue, item: Item, token: string)
    requires token in q.invoices
  {
    Counts(q, item) && item.token == token
  }

  /** The event asks for the row to be in the state `target`. */
  predicate Asks(q: Queue, e: Event, token: string, target: InvoiceState)
    requires token in q.invoices
  {
    match e
    case SyncItem(item) =>
      || (Supersedes(q, item, token) && target == SUPERSEDED)
      || (Reaches(q, item, token)
          && if Withdraws(item) then target == CANCELLED
             else Means(item, target) && q.invoices[token].state != SENT && !InHand(q.invoices[token], q.now))
    case TakeUp(call, t, _) => t == token && call !in q.calls && Winnable(q, token) && target == SENDING
    case Close(call, verdict) =>
      Works(q, call, token) && verdict == target && target in {AVAILABLE, SENT, PARTIAL, ERROR}
    case Fail(call) => Handles(q, call, token) && q.invoices[token].state != SUPERSEDED && target == ERROR
    case Withdraw(call) => Works(q, call, token) && target == SUPERSEDED
    case _ => false
  }

  /** From any state, a row's state changes to `target` exactly when the event asks for it. */
  lemma StateMovesIff(q: Queue, e: Event, token: string, target: InvoiceState)
    requires token in q.invoices && target != q.invoices[token].state
    ensures token in Step(q, e).invoices
    ensures Step(q, e).invoices[token].state == target <==> Asks(q, e, token, target)
  {
    if e.SyncItem? && Counts(q, e.item) {
      if e.item.token in q.invoices { KnownTokenIsMirrored(q, e.item); } else { NewTokenIsMirrored(q, e.item); }
    }
  }

  /** Taking a row up sets its lease; closing, failing, withdrawing or superseding it clears the lease;
      nothing else touches it, and no event but a report creates a row. */
  lemma LeasesAreExact(q: Queue, e: Event, token: string)
    requires token in q.invoices
    ensures var (before, q') := (q.invoices[token], Step(q, e));
      && token in q'.invoices
      && q'.invoices[token].lease
         == (match e
             case SyncItem(item) =>
               if Supersedes(q, item, token) || (Reaches(q, item, token) && Withdraws(item)) then None else before.lease
             case TakeUp(call, t, until) => if Asks(q, e, token, SENDING) then Some(until) else before.lease
             case Close(call, verdict) => if Asks(q, e, token, verdict) then None else before.lease
             case Fail(call) => if Asks(q, e, token, ERROR) then None else before.lease
             case Withdraw(call) => if Asks(q, e, token, SUPERSEDED) then None else before.lease
             case _ => before.lease)
      && (q'.invoices.Keys != q.invoices.Keys ==> e.SyncItem? && Counts(q, e.item) && e.item.token !in q.invoices)
  {
    if e.SyncItem? && Counts(q, e.item) {
      if e.item.token in q.invoices { KnownTokenIsMirrored(q, e.item); } else { NewTokenIsMirrored(q, e.item); }
    }
  }

  /** A call begins by winning a row, closes it once, and ends by failing, withdrawing or stopping. */
  lemma CallsAreExact(q: Queue, e: Event, call: nat)
    requires call in q.calls ==> q.calls[call].token in q.invoices
    ensures var q' := Step(q, e);
      && (call !in q.calls ==>
            (call in q'.calls <==> e.TakeUp? && e.call == call && Winnable(q, e.token))
            && (call in q'.calls ==> q'.calls[call] == Handling(e.token, false)))
      && (call in q.calls ==>
            && (call !in q'.calls <==> e in {Fail(call), Stop(call)} || (e == Withdraw(call) && !q.calls[call].acking))
            && (call in q'.calls ==>
                  && q'.calls[call].token == q.calls[call].token
                  && (q'.calls[call].acking <==>
                        q.calls[call].acking
                        || (e.Close? && e.call == call && e.verdict in {AVAILABLE, SENT, PARTIAL, ERROR}))))
  {
  }

  /** The clock is set and orders become known by their own events only. */
  lemma ClockAndOrders(q: Queue, e: Event)
    ensures var q' := Step(q, e);
      && q'.now == (if e.Wait? then e.now else q.now)
      && q'.orders == (if e.NewOrder? then q.orders + {e.order} else q.orders)
  {
  }

  // ---------------------------------------------------------------- at most one active invoice

  predicate IsActive(invoices: map<string, Invoice>, t: string) {
    t in invoices && Active(invoices[t].state)
  }

  predicate Rivals(invoices: map<string, Invoice>, t: string, u: string) {
    IsActive(invoices, t) && IsActive(invoices, u) && SameKey(invoices[t], invoices[u])
  }

  ghost predicate OneActive(invoices: map<string, Invoice>) {
    forall t, u {:trigger Rivals(invoices, t, u)} :: Rivals(invoices, t, u) ==> t == u
  }

  /** Another invoice of the same realization is active. */
  ghost predicate HasActiveSibling(invoices: map<string, Invoice>, token: string)
    requires token in invoices
  {
    exists u :: u != token && IsActive(invoices, u) && SameKey(invoices[u], invoices[token])
  }

  /** The event makes an inactive row active: a sync item that reports a token again, the closing
      write of a call whose row was withdrawn meanwhile, or a call's exception handler, which also runs
      when the acknowledgement of an invoice already SENT fails. */
  predicate Wakes(q: Queue, e: Event) {
    match e
    case SyncItem(item) =>
      && !Ignored(q, item) && item.token in q.invoices
      && !IsActive(q.invoices, item.token) && q.invoices[item.token].state != SENT && Active(Mapped(item))
    case Close(call, verdict) =>
      && Runs(q, call) && !q.calls[call].acking && !IsActive(q.invoices, q.calls[call].token)
      && verdict in {AVAILABLE, PARTIAL, ERROR}
    case Fail(call) => Runs(q, call) && q.invoices[q.calls[call].token].state in {SENT, CANCELLED}
    case _ => false
  }

  function Woken(q: Queue, e: Event): string
    requires Wakes(q, e)
  {
    if e.SyncItem? then e.item.token else q.calls[e.call].token
  }

  /** The row it makes active has an active sibling. */
  ghost predicate Revives(q: Queue, e: Event) {
    Wakes(q, e) && HasActiveSibling(q.invoices, Woken(q, e))
  }

  /** A rewrite of one row that changes neither its order nor its realization. */
  predicate Rewrites(before: map<string, Invoice>, after: map<string, Invoice>, token: string) {
    && token in before && token in after && after == before[token := after[token]]
    && SameKey(after[token], before[token])
  }

  lemma RewriteKeepsUnique(before: map<string, Invoice>, after: map<string, Invoice>, token: string)
    requires OneActive(before) && Rewrites(before, after, token)
    requires IsActive(after, token) && !IsActive(before, token) ==> !HasActiveSibling(before, token)
    ensures OneActive(after)
  {
    forall t, u | Rivals(after, t, u) ensures t == u {
      if t == token || u == token {
        var other := if t == token then u else t;
        if other != token {
          assert IsActive(before, other) && SameKey(before[other], before[token]);
          assert IsActive(before, token) ==> Rivals(before, other, token);
        }
      } else {
        assert Rivals(before, t, u);
      }
    }
  }

  lemma RewriteBreaksUnique(before: map<string, Invoice>, after: map<string, Invoice>, token: string)
    requires Rewrites(before, after, token) && IsActive(after, token) && HasActiveSibling(before, token)
    ensures !OneActive(after)
  {
    var u :| u != token && IsActive(before, u) && SameKey(before[u], before[token]);
    assert Rivals(after, token, u);
  }

  /** A new token's row displaces the active rows of its realization. */
  predicate Joined(before: map<string, Invoice>, after: map<string, Invoice>, token: string) {
    && token !in before && token in after && after.Keys == before.Keys + {token}
    && (forall t :: t in before ==> after[t] == Displaced(before[t], after[token]))
  }

  lemma JoinKeepsUnique(before: map<string, Invoice>, after: map<string, Invoice>, token: string)
    requires OneActive(before) && Joined(before, after, token)
    ensures OneActive(after)
  {
    forall t, u | Rivals(after, t, u) ensures t == u {
      if t != token && u != token { assert Rivals(before, t, u); }
    }
  }

  /** What an event does to the rows: nothing, a new token, or a rewrite of one row that wakes it
      exactly when `Wakes` says so. */
  ghost predicate Shape(q: Queue, e: Event) {
    var after := Step(q, e).invoices;
    || (after == q.invoices && !Wakes(q, e))
    || (e.SyncItem? && Joined(q.invoices, after, e.item.token) && !Wakes(q, e))
    || (exists token :: Rewrites(q.invoices, after, token)
          && (Wakes(q, e) <==> !IsActive(q.invoices, token) && IsActive(after, token))
          && (Wakes(q, e) ==> token == Woken(q, e)))
  }

  lemma SyncShape(q: Queue, e: Event)
    requires e.SyncItem?
    ensures Shape(q, e)
  {
    var item, after := e.item, Step(q, e).invoices;
    if !Ignored(q, item) {
      if item.token in q.invoices {
        assert Rewrites(q.invoices, after, item.token);
      } else {
        assert Joined(q.invoices, after, item.token);
      }
    }
  }

  lemma WriteShape(q: Queue, e: Event)
    requires e.Close? || e.Fail? || e.Withdraw?
    ensures Shape(q, e)
  {
    if Step(q, e).invoices != q.invoices || Wakes(q, e) {
      assert Rewrites(q.invoices, Step(q, e).invoices, q.calls[e.call].token);
    }
  }

  lemma ClaimShape(q: Queue, e: Event)
    requires e.TakeUp?
    ensures Shape(q, e)
  {
    if Step(q, e) != q { assert Rewrites(q.invoices, Step(q, e).invoices, e.token); }
  }

  /** Whatever 1C reports and however sync overlaps processing: one event breaks uniqueness exactly
      when it makes a row active beside an active sibling. */
  lemma StepBreaksOnlyByReviving(q: Queue, e: Event)
    requires OneActive(q.invoices)
    ensures OneActive(Step(q, e).invoices) <==> !Revives(q, e)
  {
    var after := Step(q, e).invoices;
    if e.SyncItem? { SyncShape(q, e); } else if e.TakeUp? { ClaimShape(q, e); }
    else if e.Close? || e.Fail? || e.Withdraw? { WriteShape(q, e); }
    assert Shape(q, e);
    if after == q.invoices && !Wakes(q, e) {
    } else if e.SyncItem? && Joined(q.invoices, after, e.item.token) && !Wakes(q, e) {
      JoinKeepsUnique(q.invoices, after, e.item.token);
    } else {
      var token :| Rewrites(q.invoices, after, token)
                   && (Wakes(q, e) <==> !IsActive(q.invoices, token) && IsActive(after, token))
                   && (Wakes(q, e) ==> token == Woken(q, e));
      if Revives(q, e) {
        RewriteBreaksUnique(q.invoices, after, token);
      } else {
        RewriteKeepsUnique(q.invoices, after, token);
      }
    }
  }

  function NewQueue(orders: set<string>, now: int): Queue {
    Queue(map[], 0, orders, now, map[])
  }

  ghost predicate NoneRevives(q: Queue, events: seq<Event>) {
    forall k :: 0 <= k < |events| ==> !Revives(Run(q, events[..k]), events[k])
  }

  ghost predicate AlwaysUnique(q: Queue, events: seq<Event>) {
    forall k :: 0 <= k <= |events| ==> OneActive(Run(q, events[..k]).invoices)
  }

  lemma {:induction false} UniqueUntil(q: Queue, events: seq<Event>, n: nat)
    requires OneActive(q.invoices) && NoneRevives(q, events) && n <= |events|
    ensures OneActive(Run(q, events[..n]).invoices)
  {
    if n > 0 {
      UniqueUntil(q, events, n - 1);
      assert events[..n][..n - 1] == events[..n - 1];
      assert !Revives(Run(q, events[..n - 1]), events[n - 1]);
      StepBreaksOnlyByReviving(Run(q, events[..n - 1]), events[n - 1]);
    }
  }

  /** From the empty queue uniqueness holds throughout a run exactly when no step revives. */
  lemma UniqueIffNoneRevives(orders: set<string>, now: int, events: seq<Event>)
    ensures AlwaysUnique(NewQueue(orders, now), events) <==> NoneRevives(NewQueue(orders, now), events)
  {
    var q := NewQueue(orders, now);
    if NoneRevives(q, events) {
      forall k | 0 <= k <= |events| ensures OneActive(Run(q, events[..k]).invoices) { UniqueUntil(q, events, k); }
    }
    if AlwaysUnique(q, events) {
      forall k | 0 <= k < |events| ensures !Revives(Run(q, events[..k]), events[k]) {
        assert OneActive(Run(q, events[..k]).invoices) && OneActive(Run(q, events[..k + 1]).invoices);
        assert events[..k + 1][..k] == events[..k];
        StepBreaksOnlyByReviving(Run(q, events[..k]), events[k]);
      }
    }
  }

  // ---------------------------------------------------------------- rounds never revive

  /** No row of the same realization was created later. */
  predicate Newest(q: Queue, token: string)
    requires token in q.invoices
  {
    forall u :: u in q.invoices && SameKey(q.invoices[u], q.invoices[token]) ==>
        q.invoices[u].born <= q.invoices[token].born
  }

  predicate BornOk(q: Queue) {
    && (forall t :: t in q.invoices ==> q.invoices[t].born < q.born)
    && (forall t, u :: t in q.invoices && u in q.invoices && q.invoices[t].born == q.invoices[u].born ==> t == u)
  }

  /** Active rows and rows under processing are the newest of their realization. */
  predicate Inv(q: Queue) {
    && BornOk(q)
    && (forall t :: t in q.invoices && Active(q.invoices[t].state) ==> Newest(q, t))
    && (forall c :: c in q.calls ==> q.calls[c].token in q.invoices && Newest(q, q.calls[c].token))
  }

  /** A worker round syncs before it processes, and 1C reports a token that has a newer sibling only
      to withdraw it. */
  predicate Ordered(q: Queue, e: Event) {
    e.SyncItem? ==>
      && q.calls == map[]
      && (e.item.token in q.invoices && !Newest(q, e.item.token) ==> Mapped(e.item) == CANCELLED)
  }

  predicate OrderedRun(q: Queue, events: seq<Event>) {
    events == [] ||
    (OrderedRun(q, events[..|events| - 1]) && Ordered(Run(q, events[..|events| - 1]), events[|events| - 1]))
  }

  lemma JoinedBorn(q: Queue, q': Queue, token: string)
    requires BornOk(q) && Joined(q.invoices, q'.invoices, token)
    requires q'.invoices[token].born == q.born && q'.born == q.born + 1
    ensures BornOk(q')
  {
  }

  lemma JoinedNewest(q: Queue, q': Queue, token: string, t: string)
    requires BornOk(q) && Joined(q.invoices, q'.invoices, token) && q'.invoices[token].born == q.born
    requires t in q'.invoices && Active(q'.invoices[t].state) && (t != token ==> Newest(q, t))
    ensures Newest(q', t)
  {
    forall u | u in q'.invoices && SameKey(q'.invoices[u], q'.invoices[t])
      ensures q'.invoices[u].born <= q'.invoices[t].born
    {
      if t != token && u != token { assert SameKey(q.invoices[u], q.invoices[t]); }
    }
  }

  lemma NewTokenKeepsInv(q: Queue, item: Item)
    requires Inv(q) && !Ignored(q, item) && item.token !in q.invoices && q.calls == map[]
    ensures Inv(Mirror(q, item))
  {
    var q' := Mirror(q, item);
    assert Joined(q.invoices, q'.invoices, item.token);
    JoinedBorn(q, q', item.token);
    forall t | t in q'.invoices && Active(q'.invoices[t].state) ensures Newest(q', t) {
      JoinedNewest(q, q', item.token, t);
    }
  }

  /** The rows keep their keys and their ages. */
  predicate SameAges(q: Queue, q': Queue) {
    && q'.invoices.Keys == q.invoices.Keys && q'.born == q.born
    && (forall t :: t in q.invoices ==>
          SameKey(q'.invoices[t], q.invoices[t]) && q'.invoices[t].born == q.invoices[t].born)
  }

  lemma SameAgesSameNewest(q: Queue, q': Queue, t: string)
    requires SameAges(q, q') && t in q.invoices && Newest(q, t)
    ensures Newest(q', t)
  {
    forall u | u in q'.invoices && SameKey(q'.invoices[u], q'.invoices[t])
      ensures q'.invoices[u].born <= q'.invoices[t].born
    {
      assert SameKey(q.invoices[u], q.invoices[t]);
    }
  }

  /** Rewriting states keeps the invariant as long as only newest rows become active. */
  lemma SameAgesKeepsInv(q: Queue, q': Queue)
    requires Inv(q) && SameAges(q, q')
    requires forall t :: t in q.invoices && Active(q'.invoices[t].state) ==> Active(q.invoices[t].state) || Newest(q, t)
    requires forall c :: c in q'.calls ==> q'.calls[c].token in q.invoices && Newest(q, q'.calls[c].token)
    ensures Inv(q')
  {
    forall t | t in q'.invoices && Active(q'.invoices[t].state) ensures Newest(q', t) { SameAgesSameNewest(q, q', t); }
    forall c | c in q'.calls ensures Newest(q', q'.calls[c].token) { SameAgesSameNewest(q, q', q'.calls[c].token); }
  }

  lemma SyncKeepsInv(q: Queue, e: Event)
    requires Inv(q) && e.SyncItem? && Ordered(q, e)
    ensures Inv(Step(q, e))
  {
    if !Ignored(q, e.item) {
      if e.item.token in q.invoices { SameAgesKeepsInv(q, Step(q, e)); } else { NewTokenKeepsInv(q, e.item); }
    }
  }

  lemma WriteKeepsInv(q: Queue, q': Queue, call: nat, state: InvoiceState)
    requires Inv(q) && Runs(q, call) && q'.invoices == Written(q, call, state) && q'.born == q.born
    requires forall c :: c in q'.calls ==> c in q.calls && q'.calls[c].token == q.calls[c].token
    ensures Inv(q')
  {
    SameAgesKeepsInv(q, q');
  }

  lemma ClaimKeepsInv(q: Queue, call: nat, token: string, until: int)
    requires Inv(q)
    ensures Inv(DoClaim(q, call, token, until))
  {
    if DoClaim(q, call, token, until) != q {
      assert Newest(q, token);
      SameAgesKeepsInv(q, DoClaim(q, call, token, until));
    }
  }

  /** Nothing happens to the rows, and no call joins. */
  lemma AsideKeepsInv(q: Queue, q': Queue)
    requires Inv(q) && q'.invoices == q.invoices && q'.born == q.born
    requires forall c :: c in q'.calls ==> c in q.calls && q'.calls[c].token == q.calls[c].token
    ensures Inv(q')
  {
    SameAgesKeepsInv(q, q');
  }

  lemma StepKeepsInv(q: Queue, e: Event)
    requires Inv(q) && Ordered(q, e)
    ensures Inv(Step(q, e))
  {
    if e.SyncItem? {
      SyncKeepsInv(q, e);
    } else if e.TakeUp? {
      ClaimKeepsInv(q, e.call, e.token, e.until);
    } else if Step(q, e).invoices == q.invoices {
      AsideKeepsInv(q, Step(q, e));
    } else {
      var state := if e.Close? then e.verdict else if e.Fail? then ERROR else SUPERSEDED;
      WriteKeepsInv(q, Step(q, e), e.call, state);
    }
  }

  lemma {:induction false} RunKeepsInv(q: Queue, events: seq<Event>)
    requires Inv(q) && OrderedRun(q, events)
    ensures Inv(Run(q, events))
  {
    if events != [] {
      RunKeepsInv(q, events[..|events| - 1]);
      StepKeepsInv(Run(q, events[..|events| - 1]), events[|events| - 1]);
    }
  }

  /** Over every run of rounds, with every write of a call an event of its own, each (order,
      realization) has at most one active invoice. */
  lemma AtMostOneActive(orders: set<string>, now: int, events: seq<Event>)
    requires OrderedRun(NewQueue(orders, now), events)
    ensures OneActive(Run(NewQueue(orders, now), events).invoices)
  {
    RunKeepsInv(NewQueue(orders, now), events);
  }

  // ---------------------------------------------------------------- both ways of reviving happen

  const REPORT_A := Item("o", "r", "a", Ready, false, None, 1)
  const REPORT_B := Item("o", "r", "b", Ready, false, None, 2)

  function RowOf(state: InvoiceState, lease: Option<int>, born: nat): Invoice {
    Invoice("o", "r", state, lease, born)
  }

  /** The older row is inactive, the newer one active. */
  lemma BBesideA(invoices: map<string, Invoice>)
    requires exists s :: !Active(s) && invoices == map["a" := RowOf(s, None, 0), "b" := RowOf(QUEUED, None, 1)]
    ensures OneActive(invoices) && !IsActive(invoices, "a") && HasActiveSibling(invoices, "a")
  {
    assert "a" != "b" && IsActive(invoices, "b") && !IsActive(invoices, "a");
    assert SameKey(invoices["b"], invoices["a"]);
  }

  lemma RunOfTwo(q: Queue, e: Event, f: Event)
    ensures Run(q, [e, f]) == Step(Step(q, e), f)
  {
    assert [e][..0] == [] && Run(q, []) == q;
    assert Run(q, [e]) == Step(q, e);
    assert [e, f][..1] == [e];
  }

  /** 1C reports a, then b, then a again: both are queued. */
  lemma ReportedAgain()
    ensures var q := Run(NewQueue({"o"}, 0), [SyncItem(REPORT_A), SyncItem(REPORT_B)]);
      OneActive(q.invoices) && Revives(q, SyncItem(REPORT_A)) && !OneActive(Step(q, SyncItem(REPORT_A)).invoices)
  {
    var q0 := NewQueue({"o"}, 0);
    RunOfTwo(q0, SyncItem(REPORT_A), SyncItem(REPORT_B));
    var q := Run(q0, [SyncItem(REPORT_A), SyncItem(REPORT_B)]);
    assert q.invoices == map["a" := RowOf(SUPERSEDED, None, 0), "b" := RowOf(QUEUED, None, 1)];
    BBesideA(q.invoices);
    StepBreaksOnlyByReviving(q, SyncItem(REPORT_A));
  }

  /** A call works on a when b supersedes it; its closing write puts a back beside b. */
  lemma ClosedAfterSupersession()
    ensures var q := Step(Run(NewQueue({"o"}, 0), [SyncItem(REPORT_A), TakeUp(1, "a", 120)]), SyncItem(REPORT_B));
      OneActive(q.invoices) && Revives(q, Close(1, PARTIAL)) && !OneActive(Step(q, Close(1, PARTIAL)).invoices)
  {
    var q0 := NewQueue({"o"}, 0);
    RunOfTwo(q0, SyncItem(REPORT_A), TakeUp(1, "a", 120));
    var q2 := Run(q0, [SyncItem(REPORT_A), TakeUp(1, "a", 120)]);
    assert q2.invoices == map["a" := RowOf(SENDING, Some(120), 0)] && q2.calls == map[1 := Handling("a", false)];
    var q := Step(q2, SyncItem(REPORT_B));
    assert q.invoices == map["a" := RowOf(SUPERSEDED, None, 0), "b" := RowOf(QUEUED, None, 1)];
    BBesideA(q.invoices);
    StepBreaksOnlyByReviving(q, Close(1, PARTIAL));
  }

  /** a is SENT, and b arrives before the acknowledgement of a fails: the handler makes a active. */
  lemma AckFailsAfterSent()
    ensures var sent := Step(Run(NewQueue({"o"}, 0), [SyncItem(REPORT_A), TakeUp(1, "a", 120)]), Close(1, SENT));
      var q := Step(sent, SyncItem(REPORT_B));
      OneActive(q.invoices) && Revives(q, Fail(1)) && !OneActive(Step(q, Fail(1)).invoices)
  {
    var q0 := NewQueue({"o"}, 0);
    RunOfTwo(q0, SyncItem(REPORT_A), TakeUp(1, "a", 120));
    var q2 := Run(q0, [SyncItem(REPORT_A), TakeUp(1, "a", 120)]);
    assert q2.invoices == map["a" := RowOf(SENDING, Some(120), 0)] && q2.calls == map[1 := Handling("a", false)];
    var sent := Step(q2, Close(1, SENT));
    assert sent.invoices == map["a" := RowOf(SENT, None, 0)] && sent.calls == map[1 := Handling("a", true)];
    var q := Step(sent, SyncItem(REPORT_B));
    assert "a" != "b" && q.invoices == map["a" := RowOf(SENT, None, 0), "b" := RowOf(QUEUED, None, 1)];
    BBesideA(q.invoices);
    StepBreaksOnlyByReviving(q, Fail(1));
  }

  // ---------------------------------------------------------------- one item per key

  function Lower(s: string): string {
    if s == "" then ""
    else
      var c := s[|s| - 1];
      Lower(s[..|s| - 1]) + [if 'A' <= c <= 'Z' then c - 'A' + 'a' else c]
  }

  /** Capital letters become small, everything else stays. */
  lemma {:induction false} LowerIsExact(s: string, i: nat)
    requires i < |s|
    ensures |Lower(s)| == |s|
    ensures Lower(s)[i] as int == if 65 <= s[i] as int <= 90 then s[i] as int + 32 else s[i] as int
  {
    var n := |s| - 1;
    LowerLength(s);
    if i < n { LowerIsExact(s[..n], i); } else { LowerLength(s[..n]); }
  }

  lemma {:induction false} LowerLength(s: string)
    ensures |Lower(s)| == |s|
  {
    if s != "" { LowerLength(s[..|s| - 1]); }
  }

  /** Two items meet in one key exactly when their order and realization are the same up to case. */
  lemma SameKeyIff(a: Item, b: Item)
    ensures var (s, t) := (a.order + ":" + a.realization, b.order + ":" + b.realization);
      Key(a) == Key(b) <==> |s| == |t| && forall i :: 0 <= i < |s| ==> Lower([s[i]]) == Lower([t[i]])
  {
    var s, t := a.order + ":" + a.realization, b.order + ":" + b.realization;
    LowerLength(s);
    LowerLength(t);
    forall i | 0 <= i < |s| ensures Lower([s[i]]) == [Lower(s)[i]] {
      LowerIsExact(s, i);
      LowerIsExact([s[i]], 0);
    }
    forall i | 0 <= i < |t| ensures Lower([t[i]]) == [Lower(t)[i]] {
      LowerIsExact(t, i);
      LowerIsExact([t[i]], 0);
    }
  }

  function Key(item: Item): string {
    Lower(item.order + ":" + item.realization)
  }

  function Time(item: Item): int {
    item.updatedAt.GetOr(0)
  }

  /** Strictly later by update time, then by version. */
  predicate Later(a: Item, b: Item) {
    Time(a) > Time(b) || (Time(a) == Time(b) && a.version > b.version)
  }

  /** How the response is keyed; `Key` is the one in use. */
  type Keying = Item -> string

  /** `k` is the last position holding a latest item of its key. */
  predicate Wins(keyOf: Keying, items: seq<Item>, k: nat)
    requires k < |items|
  {
    && (forall i :: 0 <= i < |items| && keyOf(items[i]) == keyOf(items[k]) ==> !Later(items[i], items[k]))
    && (forall i :: k < i < |items| && keyOf(items[i]) == keyOf(items[k]) ==> Later(items[k], items[i]))
  }

  /** Position k, among the first n items, is where the winner of `key` stands. */
  predicate Chosen(keyOf: Keying, items: seq<Item>, n: nat, item: Item, k: nat, key: string) {
    k < n <= |items| && keyOf(items[k]) == key && item == items[k] && Wins(keyOf, items[..n], k)
  }

  function Keys(keyOf: Keying, items: seq<Item>): set<string> {
    set i | 0 <= i < |items| :: keyOf(items[i])
  }

  ghost predicate Selected(keyOf: Keying, items: seq<Item>, n: nat, latest: map<string, Item>, at: map<string, nat>)
    requires n <= |items|
  {
    && latest.Keys == at.Keys == Keys(keyOf, items[..n])
    && forall key :: key in latest ==> Chosen(keyOf, items, n, latest[key], at[key], key)
  }

  /** syncOnecQueue's selection: for every key of the response its winner, and nothing else. */
  method LatestByRealization(items: seq<Item>) returns (latest: map<string, Item>)
    ensures latest.Keys == Keys(Key, items)
    ensures forall key :: key in latest ==> exists k :: Chosen(Key, items, |items|, latest[key], k, key)
  {
    latest := map[];
    ghost var at: map<string, nat> := map[];
    for n := 0 to |items|
      invariant Selected(Key, items, n, latest, at)
    {
      var item := items[n];
      var key := Key(item);
      if key !in latest || Time(item) > Time(latest[key])
         || (Time(item) == Time(latest[key]) && item.version >= latest[key].version)
      {
        SelectNew(Key, items, n, latest, at);
        latest := latest[key := item];
        at := at[key := n];
      } else {
        SelectOld(Key, items, n, latest, at);
      }
    }
    SelectedAll(Key, items, latest, at);
  }

  lemma SelectNew(keyOf: Keying, items: seq<Item>, n: nat, latest: map<string, Item>, at: map<string, nat>)
    requires n < |items| && Selected(keyOf, items, n, latest, at)
    requires var key := keyOf(items[n]); key in latest ==> !Later(latest[key], items[n])
    ensures var key := keyOf(items[n]); Selected(keyOf, items, n + 1, latest[key := items[n]], at[key := n])
  {
    KeysGrow(keyOf, items, n);
    WinnerReplaced(keyOf, items, n, latest, at);
    forall x | x in latest && x != keyOf(items[n]) ensures Chosen(keyOf, items, n + 1, latest[x], at[x], x) {
      WinnerKept(keyOf, items, n, latest[x], at[x], x);
    }
  }

  lemma SelectOld(keyOf: Keying, items: seq<Item>, n: nat, latest: map<string, Item>, at: map<string, nat>)
    requires n < |items| && Selected(keyOf, items, n, latest, at)
    requires var key := keyOf(items[n]); key in latest && Later(latest[key], items[n])
    ensures Selected(keyOf, items, n + 1, latest, at)
  {
    KeysGrow(keyOf, items, n);
    forall x | x in latest ensures Chosen(keyOf, items, n + 1, latest[x], at[x], x) {
      WinnerKept(keyOf, items, n, latest[x], at[x], x);
    }
  }

  lemma SelectedAll(keyOf: Keying, items: seq<Item>, latest: map<string, Item>, at: map<string, nat>)
    requires Selected(keyOf, items, |items|, latest, at)
    ensures latest.Keys == Keys(keyOf, items)
    ensures forall key :: key in latest ==> exists k :: Chosen(keyOf, items, |items|, latest[key], k, key)
  {
    assert items[..|items|] == items;
    forall key | key in latest ensures exists k :: Chosen(keyOf, items, |items|, latest[key], k, key) {
      assert Chosen(keyOf, items, |items|, latest[key], at[key], key);
    }
  }

  lemma KeysGrow(keyOf: Keying, items: seq<Item>, n: nat)
    requires n < |items|
    ensures Keys(keyOf, items[..n + 1]) == Keys(keyOf, items[..n]) + {keyOf(items[n])}
  {
    var longer, shorter := items[..n + 1], items[..n];
    forall i | 0 <= i < n ensures keyOf(longer[i]) in Keys(keyOf, shorter) { assert longer[i] == shorter[i]; }
    forall i | 0 <= i < n ensures keyOf(shorter[i]) in Keys(keyOf, longer) { assert longer[i] == shorter[i]; }
    assert longer[n] == items[n];
  }

  /** The winner of a key keeps its place unless the next item of that key is at least as late. */
  lemma WinnerKept(keyOf: Keying, items: seq<Item>, n: nat, item: Item, k: nat, key: string)
    requires n < |items| && Chosen(keyOf, items, n, item, k, key)
    requires key == keyOf(items[n]) ==> Later(item, items[n])
    ensures Chosen(keyOf, items, n + 1, item, k, key)
  {
    var longer := items[..n + 1];
    forall i | 0 <= i < |longer| && keyOf(longer[i]) == key
      ensures !Later(longer[i], longer[k]) && (i > k ==> Later(longer[k], longer[i]))
    {
      if i < n { assert longer[i] == items[..n][i]; }
    }
  }

  lemma WinnerReplaced(keyOf: Keying, items: seq<Item>, n: nat, latest: map<string, Item>, at: map<string, nat>)
    requires n < |items| && latest.Keys == at.Keys == Keys(keyOf, items[..n])
    requires forall key :: key in latest ==> Chosen(keyOf, items, n, latest[key], at[key], key)
    requires var key := keyOf(items[n]); key in latest ==> !Later(latest[key], items[n])
    ensures Chosen(keyOf, items, n + 1, items[n], n, keyOf(items[n]))
  {
    var longer, key := items[..n + 1], keyOf(items[n]);
    forall i | 0 <= i < n && keyOf(longer[i]) == key ensures !Later(longer[i], items[n]) {
      assert longer[i] == items[..n][i];
      assert key in latest;
    }
  }

  // ---------------------------------------------------------------- the stored rows

  class QueueStore {
    var invoices: map<string, Invoice>
    var born: nat
    var orders: set<string>
    var now: int
    var calls: map<nat, Handling>

    ghost function View(): Queue
      reads this
    {
      Queue(invoices, born, orders, now, calls)
    }

    constructor (orders: set<string>, now: int)
      ensures View() == NewQueue(orders, now)
    {
      invoices, born, calls := map[], 0, map[];
      this.orders, this.now := orders, now;
    }

    /** syncQueueItem inside its transaction. */
    method SyncQueueItem(item: Item)
      modifies `invoices, `born
      ensures View() == Mirror(old(View()), item)
    {
      if item.order == "" || item.realization == "" || item.token == "" { return; }
      if item.order !in orders { return; }
      var reported := Mapped(item);
      if item.token !in invoices {
        var newcomer := Invoice(item.order, item.realization, reported, None, born);
        invoices := map t | t in invoices ::
          (if SameKey(invoices[t], newcomer) && Active(invoices[t].state)
           then invoices[t].(state := SUPERSEDED, lease := None) else invoices[t]);
        invoices := invoices[item.token := newcomer];
        born := born + 1;
      } else {
        var row := invoices[item.token];
        if reported == CANCELLED {
          row := row.(state := CANCELLED, lease := None);
        } else if row.state == SENT {
        } else if row.state == SENDING && row.lease.Some? && row.lease.value > now {
        } else {
          row := row.(state := reported);
        }
        invoices := invoices[item.token := row];
      }
    }
  }
}
