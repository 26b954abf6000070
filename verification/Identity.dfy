/** Account resolution for Telegram and MAX sign-in (src/routes/auth.ts).  The users table is a map
    from row ids; `next` is the id the next created row gets. */
module Identity {
  import opened Options

  datatype Provider = LOCAL | TELEGRAM | MAX | HYBRID

  datatype User = User(
    phone: Option<int>, telegram: Option<int>, max: Option<int>,
    telegramName: Option<string>, maxName: Option<string>, provider: Provider)

  /** The columns that identify a person. */
  datatype Key = Phone | Telegram | Max

  /** A verified messenger session with the phone the messenger's bot has collected, if any. */
  datatype Session = Session(key: Key, id: int, name: Option<string>, phone: Option<int>)

  datatype Outcome = Ready(user: nat) | NeedPhone | NeedLink

  datatype DB = DB(users: map<nat, User>, next: nat)

  predicate IsMessenger(s: Session) {
    s.key != Phone
  }

  function Get(u: User, k: Key): Option<int> {
    match k
    case Phone => u.phone
    case Telegram => u.telegram
    case Max => u.max
  }

  /** JavaScript truthiness of a nullable bigint. */
  predicate Truthy(v: Option<int>) {
    v.Some? && v.value != 0
  }

  // ---------------------------------------------------------------- lookups

  predicate Holds(users: map<nat, User>, k: Key, v: int, id: nat) {
    id in users && Get(users[id], k) == Some(v)
  }

  ghost function Find(users: map<nat, User>, k: Key, v: int): (r: Option<nat>)
    ensures r.Some? ==> Holds(users, k, v, r.value)
    ensures r.None? ==> forall id :: !Holds(users, k, v, id)
  {
    if exists id :: Holds(users, k, v, id) then
      var id :| Holds(users, k, v, id);
      Some(id)
    else None
  }

  ghost predicate Unique(users: map<nat, User>, k: Key) {
    forall i, j, v {:trigger Holds(users, k, v, i), Holds(users, k, v, j)} ::
      Holds(users, k, v, i) && Holds(users, k, v, j) ==> i == j
  }

  ghost predicate Valid(db: DB) {
    && Unique(db.users, Phone)
    && Unique(db.users, Telegram)
    && Unique(db.users, Max)
    && forall id :: id in db.users ==> id < db.next
  }

  // ---------------------------------------------------------------- resolving a session

  /** What a resolve call decides to do, before it writes anything. */
  datatype Plan = Refresh(user: nat, takePhone: bool) | AskPhone | Attach(user: nat) | Conflict | Create

  ghost function PlanFor(db: DB, s: Session): (plan: Plan)
    ensures plan.Refresh? || plan.Attach? ==> plan.user in db.users
    ensures plan.Create? ==> Truthy(s.phone)
    ensures plan.Refresh? && plan.takePhone ==> Truthy(s.phone)
  {
    match Find(db.users, s.key, s.id)
    case Some(u) =>
      Refresh(u, !Truthy(db.users[u].phone) && Truthy(s.phone)
                 && (var owner := Find(db.users, Phone, s.phone.value); owner == None || owner == Some(u)))
    case None =>
      if !Truthy(s.phone) then AskPhone
      else
        match Find(db.users, Phone, s.phone.value)
        case None => Create
        case Some(w) =>
          var linked := Get(db.users[w], s.key);
          if !Truthy(linked) || linked == Some(s.id) then Attach(w) else Conflict
  }

  function Named(u: User, s: Session): User {
    if s.key == Telegram then u.(telegramName := s.name) else u.(maxName := s.name)
  }

  function Linked(u: User, s: Session): User {
    Named(if s.key == Telegram then u.(telegram := Some(s.id), provider := HYBRID)
          else u.(max := Some(s.id), provider := HYBRID), s)
  }

  function NewUser(s: Session): User {
    if s.key == Telegram then User(s.phone, Some(s.id), None, s.name, None, TELEGRAM)
    else User(s.phone, None, Some(s.id), None, s.name, MAX)
  }

  function Perform(db: DB, plan: Plan, s: Session): (DB, Outcome)
    requires plan.Refresh? || plan.Attach? ==> plan.user in db.users
  {
    match plan
    case Refresh(u, takePhone) =>
      var named := Named(db.users[u], s);
      (db.(users := db.users[u := if takePhone then named.(phone := s.phone) else named]), Ready(u))
    case AskPhone => (db, NeedPhone)
    case Attach(w) => (db.(users := db.users[w := Linked(db.users[w], s)]), Ready(w))
    case Conflict => (db, NeedLink)
    case Create => (DB(db.users[db.next := NewUser(s)], db.next + 1), Ready(db.next))
  }

  ghost function Resolve(db: DB, s: Session): (DB, Outcome) {
    Perform(db, PlanFor(db, s), s)
  }

  /** The link routes: a signed-in user attaches a messenger account nobody else holds. */
  ghost function Link(db: DB, user: nat, s: Session): DB {
    var owner := Find(db.users, s.key, s.id);
    if owner.Some? && owner.value != user then db
    else if user !in db.users then db
    else db.(users := db.users[user := Linked(db.users[user], s)])
  }

  // ---------------------------------------------------------------- uniqueness

  /** Writing one row keeps a column unique when its value there is absent, unchanged or free. */
  lemma UniqueAfterWrite(users: map<nat, User>, k: Key, id: nat, u: User)
    requires Unique(users, k)
    requires Get(u, k).Some? ==> forall other :: Holds(users, k, Get(u, k).value, other) ==> other == id
    ensures Unique(users[id := u], k)
  {
    var after := users[id := u];
    forall i, j, v | Holds(after, k, v, i) && Holds(after, k, v, j) ensures i == j {
      assert i != id ==> Holds(users, k, v, i);
      assert j != id ==> Holds(users, k, v, j);
    }
  }

  lemma FoundIs(users: map<nat, User>, k: Key, v: int, id: nat)
    requires Unique(users, k) && Holds(users, k, v, id)
    ensures Find(users, k, v) == Some(id)
  {
  }

  /** A row of a valid table rewritten by `plan` or by a link: no column can clash. */
  lemma KeepsValid(db: DB, id: nat, u: User, next: nat)
    requires Valid(db) && db.next <= next && id < next
    requires forall k {:trigger Get(u, k)} ::
      || Get(u, k).None?
      || (id in db.users && Get(u, k) == Get(db.users[id], k))
      || Find(db.users, k, Get(u, k).value) in {None, Some(id)}
    ensures Valid(DB(db.users[id := u], next))
  {
    forall k {:trigger Unique(db.users[id := u], k)} ensures Unique(db.users[id := u], k) {
      if Get(u, k).Some? && id in db.users && Get(u, k) == Get(db.users[id], k) {
        assert Holds(db.users, k, Get(u, k).value, id);
      }
      assert Unique(db.users, k) by { assert k == Phone || k == Telegram || k == Max; }
      forall other | Get(u, k).Some? && Holds(db.users, k, Get(u, k).value, other) ensures other == id {
        FoundIs(db.users, k, Get(u, k).value, other);
      }
      UniqueAfterWrite(db.users, k, id, u);
    }
  }

  lemma ResolveKeepsValid(db: DB, s: Session)
    requires Valid(db) && IsMessenger(s)
    ensures Valid(Resolve(db, s).0)
  {
    match PlanFor(db, s)
    case Refresh(u, takePhone) => KeepsValid(db, u, Resolve(db, s).0.users[u], db.next);
    case Attach(w) => KeepsValid(db, w, Linked(db.users[w], s), db.next);
    case Create => KeepsValid(db, db.next, NewUser(s), db.next + 1);
    case _ =>
  }

  lemma LinkKeepsValid(db: DB, user: nat, s: Session)
    requires Valid(db) && IsMessenger(s)
    ensures Valid(Link(db, user, s))
  {
    if Link(db, user, s) != db { KeepsValid(db, user, Linked(db.users[user], s), db.next); }
  }

  datatype Event = Registering | Resolving(session: Session) | Linking(user: nat, session: Session)

  const LOCAL_USER := User(None, None, None, None, None, LOCAL)

  /** Registration by e-mail: an account without a phone or messenger. */
  function Register(db: DB): DB {
    DB(db.users[db.next := LOCAL_USER], db.next + 1)
  }

  ghost function Apply(db: DB, e: Event): DB {
    match e
    case Registering => Register(db)
    case Resolving(s) => Resolve(db, s).0
    case Linking(user, s) => Link(db, user, s)
  }

  ghost function Run(db: DB, events: seq<Event>): DB {
    if events == [] then db else Apply(Run(db, events[..|events| - 1]), events[|events| - 1])
  }

  /** Over every run phone, telegramId and maxId stay unique. */
  lemma {:induction false} RunKeepsUnique(db: DB, events: seq<Event>)
    requires Valid(db) && forall e :: e in events && !e.Registering? ==> IsMessenger(e.session)
    ensures Valid(Run(db, events))
  {
    if events != [] {
      var before := Run(db, events[..|events| - 1]);
      var e := events[|events| - 1];
      assert e in events;
      RunKeepsUnique(db, events[..|events| - 1]);
      match e
      case Registering => KeepsValid(before, before.next, LOCAL_USER, before.next + 1);
      case Resolving(s) => ResolveKeepsValid(before, s);
      case Linking(user, s) => LinkKeepsValid(before, user, s);
    }
  }

  // ---------------------------------------------------------------- what an answer means

  ghost predicate PhoneLinkedElsewhere(db: DB, s: Session) {
    Truthy(s.phone) && exists w :: Holds(db.users, Phone, s.phone.value, w) && Truthy(Get(db.users[w], s.key))
  }

  /** READY names the one account that now holds the messenger id; the other answers change
      nothing, and mean exactly that the id is free and the phone is missing or taken. */
  lemma OutcomeIsExact(db: DB, s: Session)
    requires Valid(db) && IsMessenger(s)
    ensures var (after, outcome) := Resolve(db, s);
      && (outcome.Ready? ==> Find(after.users, s.key, s.id) == Some(outcome.user))
      && (!outcome.Ready? ==> after == db && Find(db.users, s.key, s.id) == None)
      && (outcome.NeedPhone? <==> Find(db.users, s.key, s.id) == None && !Truthy(s.phone))
      && (outcome.NeedLink? <==> Find(db.users, s.key, s.id) == None && PhoneLinkedElsewhere(db, s))
  {
    ResolveKeepsValid(db, s);
    var (after, outcome) := Resolve(db, s);
    if outcome.Ready? { FoundIs(after.users, s.key, s.id, outcome.user); }
    if Truthy(s.phone) {
      forall w: nat | Holds(db.users, Phone, s.phone.value, w) ensures Find(db.users, Phone, s.phone.value) == Some(w) {
        FoundIs(db.users, Phone, s.phone.value, w);
      }
      forall w: nat | Find(db.users, s.key, s.id) == None && w in db.users
        ensures Get(db.users[w], s.key) != Some(s.id)
      {
        assert !Holds(db.users, s.key, s.id, w);
      }
    }
  }

  function NameIn(u: User, k: Key): Option<string> {
    if k == Telegram then u.telegramName else u.maxName
  }

  /** `after` carries the session's messenger id and name, the given phone and provider, and for the
      other messenger what `before` has. */
  predicate Carries(before: User, after: User, s: Session, phone: Option<int>, provider: Provider) {
    && Get(after, s.key) == Some(s.id) && NameIn(after, s.key) == s.name
    && after.phone == phone && after.provider == provider
    && forall k | k in {Telegram, Max} && k != s.key ::
         Get(after, k) == Get(before, k) && NameIn(after, k) == NameIn(before, k)
  }

  ghost predicate Taken(db: DB, k: Key, v: int) {
    exists id :: Holds(db.users, k, v, id)
  }

  /** What READY leaves behind.  A known messenger id leads to its account, which takes over the name and,
      if it has no phone and nobody else has this one, the phone; else the phone's owner is linked; else
      there is a new account.  Every other account stays as it was. */
  lemma ReadyIsExact(db: DB, s: Session)
    requires Valid(db) && IsMessenger(s) && Resolve(db, s).1.Ready?
    ensures var (after, u) := (Resolve(db, s).0, Resolve(db, s).1.user);
      && u in after.users && after.users == db.users[u := after.users[u]]
      && (if Taken(db, s.key, s.id) then
            && Holds(db.users, s.key, s.id, u)
            && var takes := !Truthy(db.users[u].phone) && Truthy(s.phone)
                            && forall w :: Holds(db.users, Phone, s.phone.value, w) ==> w == u;
            Carries(db.users[u], after.users[u], s, if takes then s.phone else db.users[u].phone, db.users[u].provider)
          else
            && Truthy(s.phone)
            && if Taken(db, Phone, s.phone.value) then
                 && Holds(db.users, Phone, s.phone.value, u) && !Truthy(Get(db.users[u], s.key))
                 && Carries(db.users[u], after.users[u], s, s.phone, HYBRID)
               else
                 && u !in db.users
                 && Carries(LOCAL_USER, after.users[u], s, s.phone, if s.key == Telegram then TELEGRAM else MAX))
  {
    OutcomeIsExact(db, s);
    if Truthy(s.phone) && Find(db.users, Phone, s.phone.value).Some? {
      forall w: nat | Holds(db.users, Phone, s.phone.value, w) ensures Find(db.users, Phone, s.phone.value) == Some(w) {
        FoundIs(db.users, Phone, s.phone.value, w);
      }
    }
  }

  /** Linking writes the session's id, name and HYBRID to an existing user unless somebody else holds
      the id, and nothing else. */
  lemma LinkIsExact(db: DB, user: nat, s: Session)
    requires Valid(db) && IsMessenger(s)
    ensures var after := Link(db, user, s);
      if user in db.users && (forall w :: Holds(db.users, s.key, s.id, w) ==> w == user) then
        && user in after.users && after == db.(users := db.users[user := after.users[user]])
        && Carries(db.users[user], after.users[user], s, db.users[user].phone, HYBRID)
      else after == db
  {
    forall w: nat | Holds(db.users, s.key, s.id, w) ensures Find(db.users, s.key, s.id) == Some(w) {
      FoundIs(db.users, s.key, s.id, w);
    }
  }

  /** Resolving never moves a link: whoever held a real phone, telegramId or maxId still does. */
  lemma ResolveNeverSteals(db: DB, s: Session, k: Key, v: int, id: nat)
    requires Valid(db) && IsMessenger(s) && Holds(db.users, k, v, id) && v != 0
    ensures Holds(Resolve(db, s).0.users, k, v, id)
  {
    match PlanFor(db, s)
    case Refresh(u, takePhone) =>
    case Attach(w) => assert !Holds(db.users, s.key, s.id, w);
    case _ =>
  }

  /** Asking twice changes nothing more and gives the same answer. */
  lemma ResolveIsIdempotent(db: DB, s: Session)
    requires Valid(db) && IsMessenger(s)
    ensures var (once, outcome) := Resolve(db, s); Resolve(once, s) == (once, outcome)
  {
    var (once, outcome) := Resolve(db, s);
    OutcomeIsExact(db, s);
    if outcome.Ready? {
      var u := outcome.user;
      assert once.users[u] == Named(once.users[u], s);
      var plan := PlanFor(db, s);
      if Truthy(s.phone) && !Truthy(once.users[u].phone) {
        PhoneAfter(db, s, s.phone.value);
        assert PlanFor(once, s) == plan == Refresh(u, false);
      }
      assert PlanFor(once, s) == Refresh(u, false);
      assert once.users[u := once.users[u]] == once.users;
    }
  }

  // ---------------------------------------------------------------- confluence

  ghost function PhoneOwnerAfter(db: DB, s: Session, v: int): Option<nat> {
    match PlanFor(db, s)
    case Create => if s.phone == Some(v) then Some(db.next) else Find(db.users, Phone, v)
    case Refresh(u, true) => if s.phone == Some(v) then Some(u) else Find(db.users, Phone, v)
    case _ => Find(db.users, Phone, v)
  }

  /** Who owns a phone after a resolve call. */
  lemma PhoneAfter(db: DB, s: Session, v: int)
    requires Valid(db) && IsMessenger(s) && v != 0
    ensures Find(Resolve(db, s).0.users, Phone, v) == PhoneOwnerAfter(db, s, v)
  {
    ResolveKeepsValid(db, s);
    var after := Resolve(db, s).0;
    var owner := PhoneOwnerAfter(db, s, v);
    if owner.Some? {
      FoundIs(after.users, Phone, v, owner.value);
    } else {
      forall id ensures !Holds(after.users, Phone, v, id) {
        assert !Holds(db.users, Phone, v, id);
      }
    }
  }

  /** Resolving one messenger leaves the other messenger's links alone. */
  lemma OtherKeyUntouched(db: DB, s: Session, k: Key, v: int)
    requires Valid(db) && IsMessenger(s) && k != Phone && k != s.key
    ensures Find(Resolve(db, s).0.users, k, v) == Find(db.users, k, v)
  {
    ResolveKeepsValid(db, s);
    var after := Resolve(db, s).0;
    var owner := Find(db.users, k, v);
    if owner.Some? {
      FoundIs(after.users, k, v, owner.value);
    } else {
      forall id ensures !Holds(after.users, k, v, id) {
        assert !Holds(db.users, k, v, id);
      }
    }
  }

  predicate Phoneless(users: map<nat, User>, owner: Option<nat>) {
    owner.Some? ==> owner.value in users && !Truthy(users[owner.value].phone)
  }

  /** The one situation in which the order of two sign-ins with the same phone matters: the phone
      is free, the two messenger ids do not already share an account, at least one of them has an
      account, and no account involved has a phone of its own. */
  ghost predicate Contended(db: DB, tg: Session, mx: Session) {
    var a, b := Find(db.users, Telegram, tg.id), Find(db.users, Max, mx.id);
    && Truthy(tg.phone)
    && Find(db.users, Phone, tg.phone.value) == None
    && a != b
    && Phoneless(db.users, a) && Phoneless(db.users, b)
  }

  ghost predicate Commutes(db: DB, tg: Session, mx: Session) {
    var (db1, tgFirst) := Resolve(db, tg);
    var (db12, mxSecond) := Resolve(db1, mx);
    var (db2, mxFirst) := Resolve(db, mx);
    var (db21, tgSecond) := Resolve(db2, tg);
    db12 == db21 && tgFirst == tgSecond && mxFirst == mxSecond
  }

  predicate TakesPhone(plan: Plan) {
    plan.Create? || (plan.Refresh? && plan.takePhone)
  }

  /** The plan of the second call of two, from what both would do if they came first. */
  ghost function Second(db: DB, first: Plan, own: Plan, s: Session): Plan
    requires first.Refresh? ==> first.user in db.users
  {
    if !TakesPhone(first) then own
    else if own.Refresh? then Refresh(own.user, false)
    else if first.Create? then Attach(db.next)
    else if !Truthy(Get(db.users[first.user], s.key)) then Attach(first.user)
    else Conflict
  }

  lemma PlanAfter(db: DB, first: Session, second: Session)
    requires Valid(db) && IsMessenger(first) && IsMessenger(second) && first.key != second.key
        && first.phone == second.phone
    ensures PlanFor(Resolve(db, first).0, second) == Second(db, PlanFor(db, first), PlanFor(db, second), second)
  {
    OtherKeyUntouched(db, first, second.key, second.id);
    if Truthy(second.phone) { PhoneAfter(db, first, second.phone.value); }
    if PlanFor(db, first).Refresh? {
      assert PlanFor(db, second).Refresh? || !Holds(db.users, second.key, second.id, PlanFor(db, first).user);
    }
  }

  /** What a plan knows about the table it was made for. */
  ghost predicate Performable(db: DB, p: Plan, s: Session) {
    && db.next !in db.users
    && (p.Refresh? || p.Attach? ==> p.user in db.users)
    && (TakesPhone(p) ==> Truthy(s.phone))
    && (p.Refresh? && p.takePhone ==> !Truthy(db.users[p.user].phone))
  }

  /** The table and the two answers after performing `first` and then the other session's plan. */
  ghost function Both(db: DB, first: Plan, own: Plan, s: Session, t: Session): (DB, Outcome, Outcome)
    requires Performable(db, first, s) && Performable(db, own, t)
  {
    var (db1, x) := Perform(db, first, s);
    var (db2, y) := Perform(db1, Second(db, first, own, t), t);
    (db2, x, y)
  }

  lemma PlansCommute(db: DB, p: Plan, q: Plan, tg: Session, mx: Session)
    requires tg.key == Telegram && mx.key == Max && tg.phone == mx.phone
    requires Performable(db, p, tg) && Performable(db, q, mx)
    requires (TakesPhone(p) ==> q.Create? || q.Refresh?) && (TakesPhone(q) ==> p.Create? || p.Refresh?)
    requires TakesPhone(p) && TakesPhone(q) ==> p == q
    ensures var (a, x, y) := Both(db, p, q, tg, mx); (a, y, x) == Both(db, q, p, mx, tg)
  {
    var (a, x, y) := Both(db, p, q, tg, mx);
    var (b, v, w) := Both(db, q, p, mx, tg);
    assert a.users == b.users;
  }

  lemma ClashingPlans(db: DB, p: Plan, q: Plan, tg: Session, mx: Session)
    requires tg.key == Telegram && mx.key == Max && tg.phone == mx.phone
    requires Performable(db, p, tg) && Performable(db, q, mx)
    requires TakesPhone(p) && TakesPhone(q) && p != q
    ensures Both(db, p, q, tg, mx).0 != Both(db, q, p, mx, tg).0
  {
    var a, b := Both(db, p, q, tg, mx).0, Both(db, q, p, mx, tg).0;
    if p.Refresh? {
      assert a.users[p.user].phone != b.users[p.user].phone;
    } else {
      assert a.users[q.user].phone != b.users[q.user].phone;
    }
  }

  /** Two sign-ins with the same phone give the same answers and the same table in either order
      exactly when they are not contending for a free phone. */
  lemma CommutesUnlessContended(db: DB, tg: Session, mx: Session)
    requires Valid(db) && tg.key == Telegram && mx.key == Max && tg.phone == mx.phone
    ensures Commutes(db, tg, mx) <==> !Contended(db, tg, mx)
  {
    PlanAfter(db, tg, mx);
    PlanAfter(db, mx, tg);
    var p, q := PlanFor(db, tg), PlanFor(db, mx);
    if TakesPhone(p) && TakesPhone(q) && p != q {
      ClashingPlans(db, p, q, tg, mx);
    } else {
      PlansCommute(db, p, q, tg, mx);
    }
  }

  /** In particular for two ids nobody has linked yet. */
  lemma UnlinkedIdsCommute(db: DB, tg: Session, mx: Session)
    requires Valid(db) && tg.key == Telegram && mx.key == Max && tg.phone == mx.phone
    requires Find(db.users, Telegram, tg.id) == None && Find(db.users, Max, mx.id) == None
    ensures Commutes(db, tg, mx)
  {
    CommutesUnlessContended(db, tg, mx);
  }

  /** Contention happens: someone registers by e-mail and links Telegram, then signs in through
      Telegram and through a new MAX account, both with a phone nobody has. */
  lemma ContentionHappens()
    ensures var tg, mx := Session(Telegram, 1, None, Some(7)), Session(Max, 2, None, Some(7));
      var db := Run(DB(map[], 0), [Registering, Linking(0, tg)]);
      Valid(db) && Contended(db, tg, mx) && !Commutes(db, tg, mx)
  {
    var tg, mx := Session(Telegram, 1, None, Some(7)), Session(Max, 2, None, Some(7));
    var events := [Registering, Linking(0, tg)];
    var empty := DB(map[], 0);
    RunKeepsUnique(empty, events);
    assert events[..1] == [Registering] && [Registering][..0] == [] && Run(empty, []) == empty;
    assert Run(empty, [Registering]) == Register(empty) == DB(map[0 := LOCAL_USER], 1);
    var db := Run(empty, events);
    assert db.users == map[0 := Linked(LOCAL_USER, tg)];
    assert Holds(db.users, Telegram, 1, 0);
    FoundIs(db.users, Telegram, 1, 0);
    CommutesUnlessContended(db, tg, mx);
  }

  // ---------------------------------------------------------------- the users table

  class UserStore {
    var users: map<nat, User>
    var next: nat

    ghost function View(): DB
      reads this
    {
      DB(users, next)
    }

    constructor ()
      ensures View() == DB(map[], 0) && Valid(View())
    {
      users, next := map[], 0;
    }

    method FindFirst(k: Key, v: int) returns (r: Option<nat>)
      requires Unique(users, k)
      ensures r == Find(users, k, v)
    {
      if id :| id in users && Get(users[id], k) == Some(v) {
        FoundIs(users, k, v, id);
        return Some(id);
      }
      r := None;
    }

    /** resolveTelegramUserState. */
    method ResolveTelegram(id: int, name: Option<string>, phone: Option<int>) returns (outcome: Outcome)
      requires Valid(View())
      modifies this
      ensures (View(), outcome) == Resolve(old(View()), Session(Telegram, id, name, phone)) && Valid(View())
    {
      ghost var before, s := View(), Session(Telegram, id, name, phone);
      ResolveKeepsValid(before, s);
      var linked := FindFirst(Telegram, id);
      if linked.Some? {
        var u := linked.value;
        var owner := None;
        var takes := false;
        if !Truthy(users[u].phone) && Truthy(phone) {
          owner := FindFirst(Phone, phone.value);
          takes := owner.None? || owner.value == u;
        }
        if users[u].telegramName != name { users := users[u := users[u].(telegramName := name)]; }
        if takes { users := users[u := users[u].(phone := phone)]; }
        assert users == Resolve(before, s).0.users;
        return Ready(u);
      }
      if !Truthy(phone) { return NeedPhone; }
      var owner := FindFirst(Phone, phone.value);
      if owner.Some? {
        var u := users[owner.value];
        if Truthy(u.telegram) && u.telegram != Some(id) { return NeedLink; }
        users := users[owner.value := u.(telegram := Some(id), telegramName := name, provider := HYBRID)];
        return Ready(owner.value);
      }
      users := users[next := User(phone, Some(id), None, name, None, TELEGRAM)];
      outcome := Ready(next);
      next := next + 1;
    }

    /** resolveMaxUserState. */
    method ResolveMax(id: int, name: Option<string>, phone: Option<int>) returns (outcome: Outcome)
      requires Valid(View())
      modifies this
      ensures (View(), outcome) == Resolve(old(View()), Session(Max, id, name, phone)) && Valid(View())
    {
      ghost var before, s := View(), Session(Max, id, name, phone);
      ResolveKeepsValid(before, s);
      var linked := FindFirst(Max, id);
      if linked.Some? {
        var u := linked.value;
        var owner := None;
        var takes := false;
        if !Truthy(users[u].phone) && Truthy(phone) {
          owner := FindFirst(Phone, phone.value);
          takes := owner.None? || owner.value == u;
        }
        if users[u].maxName != name { users := users[u := users[u].(maxName := name)]; }
        if takes { users := users[u := users[u].(phone := phone)]; }
        assert users == Resolve(before, s).0.users;
        return Ready(u);
      }
      if !Truthy(phone) { return NeedPhone; }
      var owner := FindFirst(Phone, phone.value);
      if owner.Some? {
        var u := users[owner.value];
        if Truthy(u.max) && u.max != Some(id) { return NeedLink; }
        users := users[owner.value := u.(max := Some(id), maxName := name, provider := HYBRID)];
        return Ready(owner.value);
      }
      users := users[next := User(phone, None, Some(id), None, name, MAX)];
      outcome := Ready(next);
      next := next + 1;
    }

    /** The two link routes; false is the 409 or 404 answer. */
    method LinkMessenger(user: nat, s: Session) returns (ok: bool)
      requires Valid(View()) && IsMessenger(s)
      modifies this
      ensures View() == Link(old(View()), user, s) && Valid(View())
      ensures ok <==> Find(old(users), s.key, s.id) in {None, Some(user)} && user in old(users)
    {
      LinkKeepsValid(View(), user, s);
      var owner := FindFirst(s.key, s.id);
      if owner.Some? && owner.value != user { return false; }
      if user !in users { return false; }
      users := users[user := Linked(users[user], s)];
      ok := true;
    }
  }
}
