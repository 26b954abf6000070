/** The status machine of an appeal and the SLA calculator that reads its history
    (src/routes/appeals.ts).  Each request is one atomic step; times are milliseconds. */
module AppealStatus {
  import opened Options

  datatype Status = OPEN | IN_PROGRESS | COMPLETED | DECLINED | RESOLVED

  datatype Change = Change(before: Status, after: Status, at: int)

  datatype Appeal = Appeal(createdAt: int, creator: nat, department: nat, status: Status, assignees: set<nat>,
      history: seq<Change>)

  datatype Request =
    | Assign(allowed: bool, ids: set<nat>)
    | Claim(user: nat, employeeOf: Option<nat>)
    | Transfer(allowed: bool, department: nat, found: bool)
    | SetStatus(user: nat, admin: bool, manager: bool, employee: bool, status: Status)

  datatype Answer = Done | Unchanged | Forbidden | NotFound

  // ---------------------------------------------------------------- the handlers

  /** Status writes and their history row go together. */
  function Move(a: Appeal, status: Status, now: int): Appeal {
    if status == a.status then a else a.(status := status, history := a.history + [Change(a.status, status, now)])
  }

  function AfterAssign(current: Status, ids: set<nat>): Status {
    if ids != {} then IN_PROGRESS else if current == IN_PROGRESS then OPEN else current
  }

  /** Who may set which status: managers and admins any, the creator may complete or reopen a
      resolved appeal, an assignee may resolve it. */
  predicate MaySet(a: Appeal, r: Request)
    requires r.SetStatus?
  {
    if r.admin || r.manager then true
    else if a.creator == r.user then r.status == COMPLETED || (a.status == RESOLVED && r.status == IN_PROGRESS)
    else r.user in a.assignees && r.status == RESOLVED
  }

  function Handle(a: Appeal, r: Request, now: int): (Appeal, Answer) {
    match r
    case Assign(allowed, ids) =>
      if !allowed then (a, Forbidden) else (Move(a.(assignees := ids), AfterAssign(a.status, ids), now), Done)
    case Claim(user, department) =>
      if department != Some(a.department) then (a, Forbidden)
      else (Move(a.(assignees := a.assignees + {user}), IN_PROGRESS, now), Done)
    case Transfer(allowed, department, found) =>
      if !allowed then (a, Forbidden)
      else if department == a.department then (a, Unchanged)
      else if !found then (a, NotFound)
      else (Move(a.(assignees := {}, department := department), OPEN, now), Done)
    case SetStatus(user, admin, manager, employee, status) =>
      if a.creator != user && user !in a.assignees && !employee && !manager && !admin then (a, Forbidden)
      else if !MaySet(a, r) then (a, Forbidden)
      else if status == a.status then (a, Unchanged)
      else (Move(a, status, now), Done)
  }

  function Created(createdAt: int, creator: nat, department: nat): Appeal {
    Appeal(createdAt, creator, department, OPEN, {}, [])
  }

  /** Requests with the time each of them ran. */
  function Run(a: Appeal, events: seq<(Request, int)>): Appeal {
    if events == [] then a
    else
      var (r, now) := events[|events| - 1];
      Handle(Run(a, events[..|events| - 1]), r, now).0
  }

  /** The clock never runs backwards. */
  predicate Timed(createdAt: int, events: seq<(Request, int)>, now: int) {
    if events == [] then createdAt <= now
    else events[|events| - 1].1 <= now && Timed(createdAt, events[..|events| - 1], events[|events| - 1].1)
  }

  // ---------------------------------------------------------------- history is a path

  predicate IsPath(history: seq<Change>, end: Status) {
    if history == [] then end == OPEN
    else
      var last := history[|history| - 1];
      last.after == end && last.before != last.after && IsPath(history[..|history| - 1], last.before)
  }

  predicate InTime(createdAt: int, history: seq<Change>, now: int) {
    if history == [] then createdAt <= now
    else history[|history| - 1].at <= now && InTime(createdAt, history[..|history| - 1], history[|history| - 1].at)
  }

  /** The history leads to the current status, in time. */
  predicate OnPath(a: Appeal, now: int) {
    IsPath(a.history, a.status) && InTime(a.createdAt, a.history, now)
  }

  lemma HandleKeepsPath(a: Appeal, r: Request, now: int)
    requires OnPath(a, now)
    ensures OnPath(Handle(a, r, now).0, now)
  {
  }

  lemma {:induction false} RunKeepsCreation(a: Appeal, events: seq<(Request, int)>)
    ensures Run(a, events).createdAt == a.createdAt
  {
    if events != [] { RunKeepsCreation(a, events[..|events| - 1]); }
  }

  /** Over every run the status history is a self-loop-free path from OPEN to the current status,
      with times from creation to now in order. */
  lemma {:induction false} RunKeepsPath(createdAt: int, creator: nat, department: nat, events: seq<(Request, int)>,
      now: int)
    requires Timed(createdAt, events, now)
    ensures var a := Run(Created(createdAt, creator, department), events);
      a.createdAt == createdAt && IsPath(a.history, a.status) && InTime(createdAt, a.history, now)
  {
    var start := Created(createdAt, creator, department);
    RunKeepsCreation(start, events);
    if events != [] {
      var (r, at) := events[|events| - 1];
      var earlier := events[..|events| - 1];
      RunKeepsPath(createdAt, creator, department, earlier, at);
      HandleKeepsPath(Run(start, earlier), r, at);
    }
  }

  // ---------------------------------------------------------------- who moves it where

  /** Who is entitled to set a status: anybody with power over the department, the creator to close
      the appeal or to send a resolved one back, any other assignee to resolve it. */
  predicate MaySetTo(a: Appeal, user: nat, power: bool, target: Status) {
    || power
    || (user == a.creator && target == COMPLETED)
    || (user == a.creator && a.status == RESOLVED && target == IN_PROGRESS)
    || (user != a.creator && user in a.assignees && target == RESOLVED)
  }

  /** The request is one that moves the appeal to `target`, on the appeal as it finds it. */
  predicate Entitled(a: Appeal, r: Request, target: Status) {
    match target
    case OPEN =>
      || (r.Assign? && r.allowed && r.ids == {} && a.status == IN_PROGRESS)
      || (r.Transfer? && r.allowed && r.found && r.department != a.department)
      || (r.SetStatus? && r.status == OPEN && MaySetTo(a, r.user, r.admin || r.manager, OPEN))
    case IN_PROGRESS =>
      || (r.Assign? && r.allowed && r.ids != {})
      || (r.Claim? && r.employeeOf == Some(a.department))
      || (r.SetStatus? && r.status == IN_PROGRESS && MaySetTo(a, r.user, r.admin || r.manager, IN_PROGRESS))
    case _ => r.SetStatus? && r.status == target && MaySetTo(a, r.user, r.admin || r.manager, target)
  }

  /** The status changes to `target` exactly then, and the history says so. */
  lemma MovesIffEntitled(a: Appeal, r: Request, now: int, target: Status)
    requires target != a.status
    ensures var b := Handle(a, r, now).0;
      && (b.status == target <==> Entitled(a, r, target))
      && b.history == (if b.status == a.status then a.history
                       else a.history + [Change(a.status, b.status, now)])
  {
  }

  /** Over every run each recorded change was made by an event entitled to it, from the status the
      appeal had then and at the time recorded. */
  lemma {:induction false} EveryChangeHasItsAuthor(start: Appeal, events: seq<(Request, int)>, k: nat) returns (n: nat)
    requires |start.history| <= k < |Run(start, events).history|
    ensures n < |events|
    ensures var (a, c) := (Run(start, events[..n]), Run(start, events).history[k]);
      c.before == a.status && Entitled(a, events[n].0, c.after) && c.at == events[n].1
  {
    var last := |events| - 1;
    var earlier := events[..last];
    var a, b := Run(start, earlier), Run(start, events);
    if k < |a.history| {
      n := EveryChangeHasItsAuthor(start, earlier, k);
      assert earlier[..n] == events[..n];
      if b.status != a.status { MovesIffEntitled(a, events[last].0, events[last].1, b.status); }
    } else {
      n := last;
      MovesIffEntitled(a, events[last].0, events[last].1, b.status);
    }
  }

  lemma {:induction false} ReachedByAChange(start: Appeal, events: seq<(Request, int)>)
    ensures var b := Run(start, events);
      && |start.history| <= |b.history| && b.creator == start.creator
      && (b.status == start.status || (b.history != [] && b.history[|b.history| - 1].after == b.status
                                       && |start.history| < |b.history|))
  {
    if events != [] { ReachedByAChange(start, events[..|events| - 1]); }
  }

  /** Without a request by an admin or a manager nothing is ever declined, and only the creator
      closes an appeal. */
  lemma ClosingNeedsAuthority(createdAt: int, creator: nat, department: nat, events: seq<(Request, int)>)
    requires forall e :: e in events && e.0.SetStatus? ==> !e.0.admin && !e.0.manager
    ensures var a := Run(Created(createdAt, creator, department), events);
      && a.status != DECLINED
      && (a.status == COMPLETED ==> exists e :: e in events && e.0.SetStatus? && e.0.user == creator)
  {
    var start := Created(createdAt, creator, department);
    var a := Run(start, events);
    ReachedByAChange(start, events);
    if a.status != OPEN {
      var n := EveryChangeHasItsAuthor(start, events, |a.history| - 1);
      ReachedByAChange(start, events[..n]);
      assert events[n] in events;
    }
  }

  /** The event makes u an assignee, or stops u from being one. */
  predicate PutsIn(a: Appeal, r: Request, u: nat) {
    (r.Assign? && r.allowed && u in r.ids) || (r.Claim? && r.user == u && r.employeeOf == Some(a.department))
  }

  predicate TakesOut(a: Appeal, r: Request, u: nat) {
    || (r.Assign? && r.allowed && u !in r.ids)
    || (r.Transfer? && r.allowed && r.found && r.department != a.department)
  }

  predicate StillIn(start: Appeal, events: seq<(Request, int)>, u: nat, n: nat) {
    && n < |events| && PutsIn(Run(start, events[..n]), events[n].0, u)
    && forall m :: n < m < |events| ==> !TakesOut(Run(start, events[..m]), events[m].0, u)
  }

  lemma StillInGrows(start: Appeal, events: seq<(Request, int)>, u: nat, n: nat)
    requires events != [] && n < |events| - 1
    ensures var last := |events| - 1;
      StillIn(start, events, u, n)
      <==> StillIn(start, events[..last], u, n) && !TakesOut(Run(start, events[..last]), events[last].0, u)
  {
    var last := |events| - 1;
    assert forall m :: 0 <= m < last ==> events[..last][..m] == events[..m] && events[..last][m] == events[m];
  }

  /** Over every run: a user is assigned exactly when some event put them in and none since took them out. */
  lemma {:induction false} AssignedIff(createdAt: int, creator: nat, department: nat, events: seq<(Request, int)>,
      u: nat)
    ensures u in Run(Created(createdAt, creator, department), events).assignees
       <==> exists n :: StillIn(Created(createdAt, creator, department), events, u, n)
  {
    var start := Created(createdAt, creator, department);
    if events != [] {
      var last := |events| - 1;
      AssignedIff(createdAt, creator, department, events[..last], u);
      forall n: nat | n < last
        ensures StillIn(start, events, u, n)
           <==> StillIn(start, events[..last], u, n) && !TakesOut(Run(start, events[..last]), events[last].0, u)
      {
        StillInGrows(start, events, u, n);
      }
      assert PutsIn(Run(start, events[..last]), events[last].0, u) <==> StillIn(start, events, u, last);
    }
  }

  /** What a caller is told: Done exactly for a request that is granted and changes something or
      names assignees, and a refused request changes nothing. */
  lemma AnswersAreExact(a: Appeal, r: Request, now: int)
    ensures var (b, answer) := Handle(a, r, now);
      && (answer != Done ==> b == a)
      && (answer == Done <==>
            match r
            case Assign(allowed, _) => allowed
            case Claim(_, employeeOf) => employeeOf == Some(a.department)
            case Transfer(allowed, target, found) => allowed && found && target != a.department
            case SetStatus(_, _, _, _, target) => target != a.status && Entitled(a, r, target))
      && (answer == NotFound <==> r.Transfer? && r.allowed && !r.found && r.department != a.department)
      && (answer == Unchanged <==>
            || (r.Transfer? && r.allowed && r.department == a.department)
            || (r.SetStatus? && r.status == a.status && MaySetTo(a, r.user, r.admin || r.manager, r.status)))
      && b.department == (if answer == Done && r.Transfer? then r.department else a.department)
  {
  }

  // ---------------------------------------------------------------- the calculator's reference

  datatype Segment = Segment(status: Status, start: int, end: int)

  function Segments(createdAt: int, history: seq<Change>, now: int): seq<Segment> {
    if history == [] then [Segment(OPEN, createdAt, now)]
    else
      var last := history[|history| - 1];
      Segments(createdAt, history[..|history| - 1], last.at) + [Segment(last.after, last.at, now)]
  }

  function Positive(n: int): nat {
    if n < 0 then 0 else n
  }

  function Spent(points: seq<Segment>, status: Status): nat {
    if points == [] then 0
    else
      var last := points[|points| - 1];
      Spent(points[..|points| - 1], status) + if last.status == status then Positive(last.end - last.start) else 0
  }

  /** The status the appeal had at millisecond t. */
  function StatusAt(history: seq<Change>, t: int): Status {
    if history == [] then OPEN
    else if history[|history| - 1].at <= t then history[|history| - 1].after
    else StatusAt(history[..|history| - 1], t)
  }

  /** How many milliseconds of [from, until) the appeal spent in a status. */
  function Time(history: seq<Change>, status: Status, from: int, until: int): nat
    decreases until - from
  {
    if from >= until then 0
    else Time(history, status, from, until - 1) + if StatusAt(history, until - 1) == status then 1 else 0
  }

  lemma {:induction false} TimeSplits(history: seq<Change>, status: Status, from: int, mid: int, until: int)
    requires from <= mid <= until
    ensures Time(history, status, from, until) == Time(history, status, from, mid) + Time(history, status, mid, until)
    decreases until - mid
  {
    if mid < until { TimeSplits(history, status, from, mid, until - 1); }
  }

  lemma {:induction false} TimeAfterLast(history: seq<Change>, status: Status, from: int, until: int)
    requires history != [] && history[|history| - 1].at <= from <= until
    ensures Time(history, status, from, until) == (if history[|history| - 1].after == status then until - from else 0)
    decreases until - from
  {
    if from < until { TimeAfterLast(history, status, from, until - 1); }
  }

  lemma {:induction false} TimeBeforeLast(history: seq<Change>, status: Status, from: int, until: int)
    requires history != [] && until <= history[|history| - 1].at
    ensures Time(history, status, from, until) == Time(history[..|history| - 1], status, from, until)
    decreases until - from
  {
    if from < until { TimeBeforeLast(history, status, from, until - 1); }
  }

  lemma {:induction false} TimeWithoutHistory(status: Status, from: int, until: int)
    requires from <= until
    ensures Time([], status, from, until) == (if status == OPEN then until - from else 0)
    decreases until - from
  {
    if from < until { TimeWithoutHistory(status, from, until - 1); }
  }

  /** Summing segments by status measures the time really spent in that status. */
  lemma {:induction false} SegmentsMeasureTime(createdAt: int, history: seq<Change>, now: int, status: Status)
    requires InTime(createdAt, history, now)
    ensures Spent(Segments(createdAt, history, now), status) == Time(history, status, createdAt, now)
  {
    var points := Segments(createdAt, history, now);
    if history == [] {
      TimeWithoutHistory(status, createdAt, now);
      assert points[..0] == [];
    } else {
      var earlier, last := history[..|history| - 1], history[|history| - 1];
      InTimeFrom(createdAt, earlier, last.at);
      SegmentsMeasureTime(createdAt, earlier, last.at, status);
      assert points[..|points| - 1] == Segments(createdAt, earlier, last.at);
      TimeSplits(history, status, createdAt, last.at, now);
      TimeBeforeLast(history, status, createdAt, last.at);
      TimeAfterLast(history, status, last.at, now);
    }
  }

  lemma {:induction false} InTimeFrom(createdAt: int, history: seq<Change>, now: int)
    requires InTime(createdAt, history, now)
    ensures createdAt <= now
  {
    if history != [] { InTimeFrom(createdAt, history[..|history| - 1], history[|history| - 1].at); }
  }

  /** The five statuses share the elapsed time between them. */
  lemma {:induction false} TimesAddUp(history: seq<Change>, from: int, until: int)
    requires from <= until
    ensures Time(history, OPEN, from, until) + Time(history, IN_PROGRESS, from, until)
        + Time(history, COMPLETED, from, until)
          + Time(history, DECLINED, from, until) + Time(history, RESOLVED, from, until) == until - from
    decreases until - from
  {
    if from < until { TimesAddUp(history, from, until - 1); }
  }

  // ---------------------------------------------------------------- sorting the history

  predicate Sorted(history: seq<Change>) {
    forall i, j :: 0 <= i < j < |history| ==> history[i].at <= history[j].at
  }

  /** Puts `c` behind everything not later than it. */
  function Insert(history: seq<Change>, c: Change): seq<Change> {
    if history == [] || history[|history| - 1].at <= c.at then history + [c]
    else Insert(history[..|history| - 1], c) + [history[|history| - 1]]
  }

  /** A stable sort by time. */
  function SortByTime(history: seq<Change>): seq<Change> {
    if history == [] then [] else Insert(SortByTime(history[..|history| - 1]), history[|history| - 1])
  }

  lemma {:induction false} InsertKeepsAll(history: seq<Change>, c: Change)
    ensures multiset(Insert(history, c)) == multiset(history) + multiset{c}
  {
    if history != [] && history[|history| - 1].at > c.at {
      var n := |history| - 1;
      InsertKeepsAll(history[..n], c);
      assert history == history[..n] + [history[n]];
    }
  }

  predicate NoneAfter(history: seq<Change>, time: int) {
    forall i :: 0 <= i < |history| ==> history[i].at <= time
  }

  lemma {:induction false} InsertBounded(history: seq<Change>, c: Change, time: int)
    requires NoneAfter(history, time) && c.at <= time
    ensures NoneAfter(Insert(history, c), time)
  {
    if history != [] && history[|history| - 1].at > c.at {
      InsertBounded(history[..|history| - 1], c, time);
    }
  }

  lemma {:induction false} InsertSorts(history: seq<Change>, c: Change)
    requires Sorted(history)
    ensures Sorted(Insert(history, c))
  {
    if history != [] && history[|history| - 1].at > c.at {
      var n := |history| - 1;
      InsertSorts(history[..n], c);
      InsertBounded(history[..n], c, history[n].at);
    }
  }

  lemma {:induction false} SortByTimeSorts(history: seq<Change>)
    ensures Sorted(SortByTime(history))
  {
    if history != [] {
      SortByTimeSorts(history[..|history| - 1]);
      InsertSorts(SortByTime(history[..|history| - 1]), history[|history| - 1]);
    }
  }

  lemma {:induction false} SortByTimeKeepsAll(history: seq<Change>)
    ensures multiset(SortByTime(history)) == multiset(history)
  {
    if history != [] {
      var n := |history| - 1;
      SortByTimeKeepsAll(history[..n]);
      InsertKeepsAll(SortByTime(history[..n]), history[n]);
      assert history == history[..n] + [history[n]];
    }
  }

  lemma {:induction false} SortKeepsSorted(history: seq<Change>)
    requires Sorted(history)
    ensures SortByTime(history) == history
  {
    if history != [] {
      var n := |history| - 1;
      SortKeepsSorted(history[..n]);
      assert history == history[..n] + [history[n]];
    }
  }

  lemma {:induction false} InTimeIsSorted(createdAt: int, history: seq<Change>, now: int)
    requires InTime(createdAt, history, now)
    ensures Sorted(history) && forall c :: c in history ==> createdAt <= c.at <= now
  {
    if history != [] {
      var n := |history| - 1;
      InTimeIsSorted(createdAt, history[..n], history[n].at);
      InTimeFrom(createdAt, history[..n], history[n].at);
      assert history == history[..n] + [history[n]];
      forall i | 0 <= i < n ensures history[i].at <= history[n].at {
        assert history[i] == history[..n][i];
      }
    }
  }

  // ---------------------------------------------------------------- the calculator

  datatype Metrics = Metrics(open: nat, work: nat, toFirstInProgress: Option<nat>, toFirstResolved: Option<nat>)

  function FirstTo(history: seq<Change>, status: Status): Option<Change> {
    if history == [] then None
    else if history[0].after == status then Some(history[0])
    else FirstTo(history[1..], status)
  }

  function Delay(first: Option<Change>, createdAt: int): Option<nat> {
    if first.None? then None else Some(Positive(first.value.at - createdAt))
  }

  predicate EarliestTo(history: seq<Change>, status: Status, k: nat) {
    k < |history| && history[k].after == status &&
    forall i :: 0 <= i < |history| && history[i].after == status ==> history[k].at <= history[i].at
  }

  lemma {:induction false} FirstToIsFirst(history: seq<Change>, status: Status) returns (k: nat)
    ensures match FirstTo(history, status)
      case None => forall i :: 0 <= i < |history| ==> history[i].after != status
      case Some(c) =>
        && k < |history| && history[k] == c && c.after == status
        && forall i :: 0 <= i < k ==> history[i].after != status
  {
    k := 0;
    if history != [] && history[0].after != status {
      var j := FirstToIsFirst(history[1..], status);
      assert forall i :: 1 <= i < |history| ==> history[i] == history[1..][i - 1];
      k := j + 1;
    }
  }

  /** On every reachable history the first-change times are the waiting times until the appeal
      first went to that status, and are missing exactly when it never did. */
  lemma WaitingTimesAreExact(createdAt: int, creator: nat, department: nat, events: seq<(Request, int)>, now: int,
      status: Status)
    requires Timed(createdAt, events, now)
    ensures var history := Run(Created(createdAt, creator, department), events).history;
      match Delay(FirstTo(SortByTime(history), status), createdAt)
      case None => forall i :: 0 <= i < |history| ==> history[i].after != status
      case Some(wait) => exists k: nat :: EarliestTo(history, status, k) && wait == history[k].at - createdAt
  {
    RunKeepsPath(createdAt, creator, department, events, now);
    var history := Run(Created(createdAt, creator, department), events).history;
    InTimeIsSorted(createdAt, history, now);
    SortKeepsSorted(history);
    var k := FirstToIsFirst(history, status);
    if FirstTo(history, status).Some? {
      assert EarliestTo(history, status, k) && history[k] in history;
    }
  }

  method SumByStatus(points: seq<Segment>, status: Status) returns (sum: nat)
    ensures sum == Spent(points, status)
  {
    sum := 0;
    for i := 0 to |points|
      invariant sum == Spent(points[..i], status)
    {
      assert points[..i + 1][..i] == points[..i];
      var p := points[i];
      if p.status == status && p.end > p.start { sum := sum + (p.end - p.start); }
    }
    assert points[..|points|] == points;
  }

  method FindFirst(history: seq<Change>, status: Status) returns (first: Option<Change>)
    ensures first == FirstTo(history, status)
  {
    var i := 0;
    while i < |history|
      invariant 0 <= i <= |history|
      invariant FirstTo(history, status) == FirstTo(history[i..], status)
    {
      if history[i].after == status { return Some(history[i]); }
      i := i + 1;
    }
    first := None;
  }

  /** calculateAppealSla: a cursor walks the sorted changes and closes one segment per change. */
  method CalculateSla(createdAt: int, history: seq<Change>, now: int) returns (m: Metrics)
    ensures var sorted := SortByTime(history);
      && m.open == Spent(Segments(createdAt, sorted, now), OPEN)
      && m.work == Spent(Segments(createdAt, sorted, now), IN_PROGRESS)
      && m.toFirstInProgress == Delay(FirstTo(sorted, IN_PROGRESS), createdAt)
      && m.toFirstResolved == Delay(FirstTo(sorted, RESOLVED), createdAt)
  {
    var sorted := SortByTime(history);
    var points: seq<Segment> := [];
    var cursorStatus, cursorStart := OPEN, createdAt;
    for i := 0 to |sorted|
      invariant forall end ::
          points + [Segment(cursorStatus, cursorStart, end)] == Segments(createdAt, sorted[..i], end)
    {
      assert sorted[..i + 1][..i] == sorted[..i];
      points := points + [Segment(cursorStatus, cursorStart, sorted[i].at)];
      cursorStatus, cursorStart := sorted[i].after, sorted[i].at;
    }
    points := points + [Segment(cursorStatus, cursorStart, now)];
    assert sorted[..|sorted|] == sorted;
    var open := SumByStatus(points, OPEN);
    var work := SumByStatus(points, IN_PROGRESS);
    var inProgress := FindFirst(sorted, IN_PROGRESS);
    var resolved := FindFirst(sorted, RESOLVED);
    m := Metrics(open, work, Delay(inProgress, createdAt), Delay(resolved, createdAt));
  }

  function Elapsed(points: seq<Segment>): int {
    if points == [] then 0
    else Elapsed(points[..|points| - 1]) + (points[|points| - 1].end - points[|points| - 1].start)
  }

  lemma {:induction false} SegmentsTile(createdAt: int, history: seq<Change>, now: int)
    requires InTime(createdAt, history, now)
    ensures Elapsed(Segments(createdAt, history, now)) == now - createdAt
  {
    var points := Segments(createdAt, history, now);
    if history == [] {
      assert points[..0] == [];
    } else {
      var earlier, last := history[..|history| - 1], history[|history| - 1];
      SegmentsTile(createdAt, earlier, last.at);
      assert points[..|points| - 1] == Segments(createdAt, earlier, last.at);
    }
  }

  /** On every reachable history the calculator measures real time: the last segment carries the
      current status, the segments add up to the appeal's age, open and work are the milliseconds
      spent OPEN and IN_PROGRESS, and together they never exceed the age. */
  lemma SlaOfReachableHistory(createdAt: int, creator: nat, department: nat, events: seq<(Request, int)>, now: int)
    requires Timed(createdAt, events, now)
    ensures var a := Run(Created(createdAt, creator, department), events);
      var points := Segments(createdAt, SortByTime(a.history), now);
      && points[|points| - 1].status == a.status
      && Elapsed(points) == now - createdAt
      && Spent(points, OPEN) == Time(a.history, OPEN, createdAt, now)
      && Spent(points, IN_PROGRESS) == Time(a.history, IN_PROGRESS, createdAt, now)
      && Spent(points, OPEN) + Spent(points, IN_PROGRESS) <= now - createdAt
  {
    RunKeepsPath(createdAt, creator, department, events, now);
    var a := Run(Created(createdAt, creator, department), events);
    InTimeIsSorted(createdAt, a.history, now);
    SortKeepsSorted(a.history);
    SegmentsTile(createdAt, a.history, now);
    SegmentsMeasureTime(createdAt, a.history, now, OPEN);
    SegmentsMeasureTime(createdAt, a.history, now, IN_PROGRESS);
    InTimeFrom(createdAt, a.history, now);
    TimesAddUp(a.history, createdAt, now);
  }

  // ---------------------------------------------------------------- the stored appeal

  class AppealRecord {
    const createdAt: int
    const creator: nat
    var department: nat
    var status: Status
    var assignees: set<nat>
    var history: seq<Change>

    ghost function View(): Appeal
      reads this
    {
      Appeal(createdAt, creator, department, status, assignees, history)
    }

    constructor (createdAt: int, creator: nat, department: nat)
      ensures View() == Created(createdAt, creator, department)
    {
      this.createdAt, this.creator, this.department := createdAt, creator, department;
      status, assignees, history := OPEN, {}, [];
    }

    method AssignUsers(allowed: bool, ids: set<nat>, now: int) returns (answer: Answer)
      modifies `status, `assignees, `history
      ensures (View(), answer) == Handle(old(View()), Assign(allowed, ids), now)
    {
      if !allowed { return Forbidden; }
      var next := status;
      if ids != {} {
        next := IN_PROGRESS;
      } else if status == IN_PROGRESS {
        next := OPEN;
      }
      assignees := ids;
      if next != status {
        history := history + [Change(status, next, now)];
        status := next;
      }
      answer := Done;
    }

    method ClaimAppeal(user: nat, employeeOf: Option<nat>, now: int) returns (answer: Answer)
      modifies `status, `assignees, `history
      ensures (View(), answer) == Handle(old(View()), Claim(user, employeeOf), now)
    {
      if employeeOf != Some(department) { return Forbidden; }
      assignees := assignees + {user};
      if status != IN_PROGRESS {
        history := history + [Change(status, IN_PROGRESS, now)];
        status := IN_PROGRESS;
      }
      answer := Done;
    }

    method TransferTo(allowed: bool, target: nat, found: bool, now: int) returns (answer: Answer)
      modifies `status, `assignees, `history, `department
      ensures (View(), answer) == Handle(old(View()), Transfer(allowed, target, found), now)
    {
      if !allowed { return Forbidden; }
      if department == target { return Unchanged; }
      if !found { return NotFound; }
      if status != OPEN { history := history + [Change(status, OPEN, now)]; }
      assignees, department, status := {}, target, OPEN;
      answer := Done;
    }

    method UpdateStatus(user: nat, admin: bool, manager: bool, employee: bool, next: Status, now: int)
        returns (answer: Answer)
      modifies `status, `history
      ensures (View(), answer) == Handle(old(View()), SetStatus(user, admin, manager, employee, next), now)
    {
      var isCreator, isAssignee := creator == user, user in assignees;
      if !isCreator && !isAssignee && !employee && !manager && !admin { return Forbidden; }
      var allowed := false;
      if admin || manager {
        allowed := true;
      } else if isCreator {
        allowed := next == COMPLETED || (status == RESOLVED && next == IN_PROGRESS);
      } else if isAssignee {
        allowed := next == RESOLVED;
      }
      if !allowed { return Forbidden; }
      if next == status { return Unchanged; }
      history := history + [Change(status, next, now)];
      status := next;
      answer := Done;
    }
  }
}
