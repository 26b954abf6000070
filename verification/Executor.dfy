/** forEachConcurrent: workers sharing one cursor and one error list
    (src/services/clientOrderInvoiceWorker.ts).

    Between two awaits nothing else runs, so a worker's turn (record the outcome of its task, then
    take the next item or stop) is one atomic event; tasks settle in any order. */
module Executor {
  import opened Numbers
  import opened Options

  /** `busy` maps a worker to the item it awaits; `started` lists the items in the order taken. */
  datatype State<E> = State(
    items: nat, workers: nat, cursor: nat, busy: map<nat, nat>, started: seq<nat>, finished: set<nat>, errors: seq<E>)

  /** A settled task: which worker, and its error if it threw. */
  datatype Settled<E> = Settled(worker: nat, error: Option<E>)

  function WorkerCount(items: nat, concurrency: int): nat {
    Min(if concurrency < 1 then 1 else concurrency, items)
  }

  /** A worker's loop test: take the item under the cursor, or stop. */
  function Next<E>(s: State<E>, worker: nat): State<E> {
    if s.cursor < s.items then
      s.(busy := s.busy[worker := s.cursor], started := s.started + [s.cursor], cursor := s.cursor + 1)
    else s.(busy := s.busy - {worker})
  }

  /** Creating the workers runs each of them up to its first await. */
  function Started<E>(items: nat, workers: nat, k: nat): State<E> {
    if k == 0 then State(items, workers, 0, map[], [], {}, [])
    else Next(Started(items, workers, k - 1), k - 1)
  }

  function Start<E>(items: nat, concurrency: int): State<E> {
    var workers := WorkerCount(items, concurrency);
    Started(items, workers, workers)
  }

  function Settle<E>(s: State<E>, e: Settled<E>): State<E> {
    if e.worker !in s.busy then s
    else
      Next(s.(finished := s.finished + {s.busy[e.worker]},
              errors := if e.error.Some? then s.errors + [e.error.value] else s.errors),
           e.worker)
  }

  function Run<E>(s: State<E>, events: seq<Settled<E>>): State<E> {
    if events == [] then s else Settle(Run(s, events[..|events| - 1]), events[|events| - 1])
  }

  /** Promise.all resolves when every worker has stopped. */
  predicate Done<E>(s: State<E>) {
    s.busy == map[]
  }

  function Thrown<E>(s: State<E>): Option<E> {
    if s.errors == [] then None else Some(s.errors[0])
  }

  // ---------------------------------------------------------------- the inductive invariant

  predicate Placed<E>(s: State<E>) {
    && s.cursor <= s.items
    && |s.started| == s.cursor && (forall i :: 0 <= i < s.cursor ==> s.started[i] == i)
    && (forall w :: w in s.busy ==> s.busy[w] < s.cursor && s.busy[w] !in s.finished)
    && (forall v, w :: v in s.busy && w in s.busy && s.busy[v] == s.busy[w] ==> v == w)
    && (forall i :: i in s.finished ==> i < s.cursor)
  }

  predicate Counted<E>(s: State<E>) {
    && |s.finished| + |s.busy| == s.cursor <= s.items
    && |s.busy| == Min(s.workers, s.items - |s.finished|)
  }

  predicate Inv<E>(s: State<E>) {
    Placed(s) && Counted(s)
  }

  lemma {:induction false} StartedOk<E>(items: nat, workers: nat, k: nat)
    requires k <= workers <= items
    ensures var s: State<E> := Started(items, workers, k);
      && s.items == items && s.workers == workers && s.cursor == k && s.finished == {} && s.errors == []
      && |s.started| == k && (forall i :: 0 <= i < k ==> s.started[i] == i)
      && |s.busy| == k && (forall w :: w in s.busy <==> 0 <= w < k) && (forall w :: w in s.busy ==> s.busy[w] == w)
  {
    if k > 0 {
      StartedOk<E>(items, workers, k - 1);
      var p: State<E> := Started(items, workers, k - 1);
      assert k - 1 !in p.busy;
    }
  }

  lemma StartKeepsInv<E>(items: nat, concurrency: int)
    ensures var s: State<E> := Start(items, concurrency);
      Inv(s) && s.items == items && s.workers == WorkerCount(items, concurrency) && s.errors == []
  {
    StartedOk<E>(items, WorkerCount(items, concurrency), WorkerCount(items, concurrency));
  }

  lemma SettleKeepsCounted<E>(s: State<E>, e: Settled<E>)
    requires Counted(s) && e.worker in s.busy && s.busy[e.worker] !in s.finished
    ensures Counted(Settle(s, e)) && |Settle(s, e).finished| == |s.finished| + 1
  {
    var s' := Settle(s, e);
    assert |s'.finished| == |s.finished| + 1;
    assert |s.busy.Keys| == |s.busy| && |s'.busy.Keys| == |s'.busy|;
    if s.cursor < s.items {
      assert s'.busy.Keys == s.busy.Keys;
    } else {
      assert s'.busy.Keys == s.busy.Keys - {e.worker};
    }
  }

  lemma SettleKeepsInv<E>(s: State<E>, e: Settled<E>)
    requires Inv(s) && e.worker in s.busy
    ensures Inv(Settle(s, e)) && |Settle(s, e).finished| == |s.finished| + 1
    ensures Settle(s, e).items == s.items && Settle(s, e).workers == s.workers
    ensures Settle(s, e).errors == s.errors + if e.error.Some? then [e.error.value] else []
  {
    SettleKeepsCounted(s, e);
  }

  /** Every event settles a task some worker was really awaiting. */
  predicate Real<E>(s: State<E>, events: seq<Settled<E>>) {
    events == [] ||
    (Real(s, events[..|events| - 1]) && events[|events| - 1].worker in Run(s, events[..|events| - 1]).busy)
  }

  /** The errors recorded by a run, in the order the tasks settled. */
  function Failures<E>(events: seq<Settled<E>>): seq<E> {
    if events == [] then []
    else
      var last := events[|events| - 1];
      Failures(events[..|events| - 1]) + if last.error.Some? then [last.error.value] else []
  }

  lemma {:induction false} RunKeepsInv<E>(s: State<E>, events: seq<Settled<E>>)
    requires Inv(s) && Real(s, events)
    ensures var s' := Run(s, events);
      && Inv(s') && s'.items == s.items && s'.workers == s.workers
      && |s'.finished| == |s.finished| + |events|
  {
    if events != [] {
      RunKeepsInv(s, events[..|events| - 1]);
      SettleKeepsInv(Run(s, events[..|events| - 1]), events[|events| - 1]);
    }
  }

  lemma {:induction false} RunRecordsFailures<E>(s: State<E>, events: seq<Settled<E>>)
    requires Real(s, events) && s.errors == []
    ensures Run(s, events).errors == Failures(events)
  {
    if events != [] {
      RunRecordsFailures(s, events[..|events| - 1]);
    }
  }

  lemma {:induction false} SubsetOfRange(a: set<nat>, n: nat)
    requires forall i :: i in a ==> i < n
    ensures |a| <= n && (|a| == n ==> forall i :: 0 <= i < n ==> i in a)
  {
    if n > 0 {
      SubsetOfRange(a - {n - 1}, n - 1);
      assert n - 1 in a ==> |a - {n - 1}| == |a| - 1;
      assert n - 1 !in a ==> a - {n - 1} == a;
    }
  }

  /** For every order in which tasks settle and however many fail: items are started in order and
      each exactly once; the number in flight is exactly min(workers, unfinished) and so never above
      min(max(1, c), n); the executor is done exactly when n tasks have settled, and then every item
      has; it throws exactly when some task failed, with the error recorded first. */
  lemma ExecutorIsExact<E>(items: nat, concurrency: int, events: seq<Settled<E>>)
    requires Real(Start(items, concurrency), events)
    ensures var s := Run(Start(items, concurrency), events);
      && (forall i :: 0 <= i < |s.started| ==> s.started[i] == i)
      && |events| <= items
      && |s.busy| == Min(WorkerCount(items, concurrency), items - |events|)
      && (Done(s) <==> |events| == items)
      && (Done(s) ==> |s.started| == items && forall i :: 0 <= i < items ==> i in s.finished)
      && (Thrown(s) == if Failures(events) == [] then None else Some(Failures(events)[0]))
  {
    StartKeepsInv<E>(items, concurrency);
    RunKeepsInv(Start<E>(items, concurrency), events);
    var s := Run(Start(items, concurrency), events);
    SubsetOfRange(s.finished, items);
    assert Start<E>(items, concurrency).finished == {} by {
      StartedOk<E>(items, WorkerCount(items, concurrency), WorkerCount(items, concurrency));
    }
    assert s.busy == map[] <==> |s.busy| == 0;
    RunRecordsFailures(Start<E>(items, concurrency), events);
  }

  // ---------------------------------------------------------------- the shared variables

  class SharedRun<E> {
    const items: nat
    const workers: nat
    var cursor: nat
    var busy: map<nat, nat>
    var started: seq<nat>
    var finished: set<nat>
    var errors: seq<E>

    ghost function View(): State<E>
      reads this
    {
      State(items, workers, cursor, busy, started, finished, errors)
    }

    constructor (items: nat, concurrency: int)
      ensures View() == Start(items, concurrency)
    {
      var n := if concurrency < 1 then 1 else concurrency;
      if n > items { n := items; }
      this.items, this.workers := items, n;
      cursor, busy, started, finished, errors := 0, map[], [], {}, [];
      new;
      for k := 0 to n
        invariant View() == Started(items, n, k)
      {
        TakeNext(k);
      }
    }

    method TakeNext(worker: nat)
      modifies `cursor, `busy, `started
      ensures View() == Next(old(View()), worker)
    {
      if cursor < items {
        busy, started, cursor := busy[worker := cursor], started + [cursor], cursor + 1;
      } else {
        busy := busy - {worker};
      }
    }

    method OnSettled(worker: nat, error: Option<E>)
      requires worker in busy
      modifies this
      ensures View() == Settle(old(View()), Settled(worker, error))
    {
      finished := finished + {busy[worker]};
      if error.Some? { errors := errors + [error.value]; }
      TakeNext(worker);
    }
  }
}
