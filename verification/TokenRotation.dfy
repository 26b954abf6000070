/** Refresh-token rotation: lookup, recheck, claim, create and link, interleaved by
    any number of concurrent requests (src/routes/auth.ts, src/services/authRefreshTokenService.ts).

    Every database statement is one atomic event.  Rows are never deleted, so a token is named by
    its autoincrement id; the raw token string and its hash stand in bijection with that id.  A
    transaction that fails leaves no visible write and is therefore no event at all. */
module TokenRotation {
  import opened Options

  datatype Token = Token(
    user: nat, family: nat, session: Option<nat>, revoked: bool, expiresAt: int,
    usedAt: Option<int>, graceUntil: Option<int>, replacedBy: Option<nat>)

  datatype Session = Session(user: nat, installId: string, revoked: bool)

  /** Device data after trimming: an empty install id is an absent one. */
  datatype Device = Device(session: Option<nat>, installId: string)

  datatype Phase = Checked | Rechecked | Claimed | Created(successor: nat) | Linked(successor: nat) | Refused

  /** A POST /token request that passed its lookup. */
  datatype Request = Request(token: nat, device: Device, phase: Phase)

  datatype Db = Db(
    tokens: map<nat, Token>, nextToken: nat,
    sessions: map<nat, Session>, nextSession: nat,
    nextFamily: nat,
    requests: map<nat, Request>)

  const EMPTY_DB := Db(map[], 0, map[], 0, 0, map[])
  const LIFETIME_MS: int := 30 * 24 * 60 * 60 * 1000
  const GRACE_MS: int := 60000

  datatype Event =
    | Login(user: nat, device: Device, now: int)
    | Present(req: nat, token: nat, verified: bool, device: Device, now: int)
    | Recheck(req: nat, now: int)
    | Claim(req: nat, now: int)
    | Create(req: nat, now: int)
    | Link(req: nat)
    | Logout(user: nat, token: nat)
    | RevokeSession(session: nat)

  datatype Answer = Proceed | UnknownToken | AlreadyRotated | RevokedToken | ExpiredToken | BadSignature

  // ---------------------------------------------------------------- the handlers' logic

  /** What the route answers from the row it found first, before any transaction starts. */
  function Inspect(s: Db, token: nat, verified: bool, now: int): (r: Answer)
    ensures r.Proceed? ==> token in s.tokens && !s.tokens[token].revoked && now <= s.tokens[token].expiresAt
  {
    if token !in s.tokens then UnknownToken
    else
      var t := s.tokens[token];
      if t.revoked then
        if t.graceUntil.Some? && t.graceUntil.value > now then AlreadyRotated else RevokedToken
      else if t.expiresAt < now then ExpiredToken
      else if !verified then BadSignature
      else Proceed
  }

  predicate Usable(s: Db, id: nat, user: nat) {
    id in s.sessions && s.sessions[id].user == user && !s.sessions[id].revoked
  }

  /** The newest unrevoked session of this user and install among ids below `bound`
      (ids are handed out in creation order). */
  function NewestFor(s: Db, user: nat, installId: string, bound: nat): (r: Option<nat>)
    ensures r.Some? ==> r.value < bound && Usable(s, r.value, user) && s.sessions[r.value].installId == installId
    ensures forall i :: (if r.Some? then r.value + 1 else 0) <= i < bound && Usable(s, i, user)
              ==> s.sessions[i].installId != installId
  {
    if bound == 0 then None
    else if Usable(s, bound - 1, user) && s.sessions[bound - 1].installId == installId then Some(bound - 1)
    else NewestFor(s, user, installId, bound - 1)
  }

  /** A session found by its id takes over the install id the device reports now, if any. */
  function Reinstall(s: Db, id: nat, installId: string): Db
    requires id in s.sessions
  {
    var kept := if installId != "" then installId else s.sessions[id].installId;
    s.(sessions := s.sessions[id := s.sessions[id].(installId := kept)])
  }

  function EnsureSession(s: Db, user: nat, device: Device): (Db, Option<nat>) {
    if device.session.Some? && Usable(s, device.session.value, user)
    then (Reinstall(s, device.session.value, device.installId), device.session)
    else if device.installId == "" then (s, None)
    else
      var newest := NewestFor(s, user, device.installId, s.nextSession);
      if newest.Some? then (s, newest)
      else
        (s.(sessions := s.sessions[s.nextSession := Session(user, device.installId, false)],
            nextSession := s.nextSession + 1),
         Some(s.nextSession))
  }

  /** Stores a new live token; a missing family id starts a family of its own. */
  function Persist(s: Db, user: nat, family: Option<nat>, device: Device, now: int): (Db, nat) {
    var (s1, session) := EnsureSession(s, user, device);
    var row := Token(user, family.GetOr(s1.nextFamily), session, false, now + LIFETIME_MS, None, None, None);
    (s1.(tokens := s1.tokens[s1.nextToken := row],
         nextToken := s1.nextToken + 1,
         nextFamily := if family.Some? then s1.nextFamily else s1.nextFamily + 1),
     s1.nextToken)
  }

  function SetPhase(s: Db, req: nat, phase: Phase): Db
    requires req in s.requests
  {
    s.(requests := s.requests[req := s.requests[req].(phase := phase)])
  }

  function DoPresent(s: Db, req: nat, token: nat, verified: bool, device: Device, now: int): Db {
    if req in s.requests || !Inspect(s, token, verified, now).Proceed? then s
    else
      var merged := if device.session.Some? then device else device.(session := s.tokens[token].session);
      s.(requests := s.requests[req := Request(token, merged, Checked)])
  }

  predicate At(s: Db, req: nat, phase: Phase) {
    req in s.requests && s.requests[req].phase == phase && s.requests[req].token in s.tokens
  }

  function DoRecheck(s: Db, req: nat, now: int): Db {
    if !At(s, req, Checked) then s
    else
      var t := s.tokens[s.requests[req].token];
      SetPhase(s, req, if t.revoked || t.expiresAt < now then Refused else Rechecked)
  }

  /** The conditional update: it hits the row only while the row is live and unexpired. */
  function DoClaim(s: Db, req: nat, now: int): Db {
    if !At(s, req, Rechecked) then s
    else
      var id := s.requests[req].token;
      var t := s.tokens[id];
      if t.revoked || t.expiresAt < now then SetPhase(s, req, Refused)
      else
        SetPhase(s, req, Claimed)
          .(tokens := s.tokens[id := t.(revoked := true, usedAt := Some(now), graceUntil := Some(now + GRACE_MS))])
  }

  function DoCreate(s: Db, req: nat, now: int): Db {
    if !At(s, req, Claimed) then s
    else
      var t := s.tokens[s.requests[req].token];
      var (s1, id) := Persist(s, t.user, Some(t.family), s.requests[req].device, now);
      s1.(requests := s.requests[req := s.requests[req].(phase := Created(id))])
  }

  function DoLink(s: Db, req: nat): Db {
    if req in s.requests && s.requests[req].phase.Created? && s.requests[req].token in s.tokens then
      var id := s.requests[req].token;
      var successor := s.requests[req].phase.successor;
      SetPhase(s, req, Linked(successor)).(tokens := s.tokens[id := s.tokens[id].(replacedBy := Some(successor))])
    else s
  }

  function DoLogout(s: Db, user: nat, token: nat): Db {
    if token in s.tokens && s.tokens[token].user == user then
      s.(tokens := s.tokens[token := s.tokens[token].(revoked := true)])
    else s
  }

  function DoRevokeSession(s: Db, session: nat): Db {
    if session in s.sessions then s.(sessions := s.sessions[session := s.sessions[session].(revoked := true)])
    else s
  }

  function Step(s: Db, e: Event): Db {
    match e
    case Login(user, device, now) => Persist(s, user, None, device, now).0
    case Present(req, token, verified, device, now) => DoPresent(s, req, token, verified, device, now)
    case Recheck(req, now) => DoRecheck(s, req, now)
    case Claim(req, now) => DoClaim(s, req, now)
    case Create(req, now) => DoCreate(s, req, now)
    case Link(req) => DoLink(s, req)
    case Logout(user, token) => DoLogout(s, user, token)
    case RevokeSession(session) => DoRevokeSession(s, session)
  }

  function Run(s: Db, events: seq<Event>): Db {
    if events == [] then s else Step(Run(s, events[..|events| - 1]), events[|events| - 1])
  }

  // ---------------------------------------------------------------- the inductive invariant

  predicate TookToken(p: Phase) {
    p.Claimed? || p.Created? || p.Linked?
  }

  predicate HoldsSuccessor(r: Request) {
    r.phase.Created? || r.phase.Linked?
  }

  /** `n` continues `t`: younger, same user, same family. */
  predicate Continues(s: Db, t: nat, n: nat) {
    && t in s.tokens && n in s.tokens && t < n
    && s.tokens[n].user == s.tokens[t].user && s.tokens[n].family == s.tokens[t].family
  }

  /** Auxiliary history of a run, used only to state the invariant: which token ends each family's
      chain, which request took each token, which token replaces it, and which token it replaces. */
  datatype History = History(tail: map<nat, nat>, taker: map<nat, nat>, succ: map<nat, nat>, pred: map<nat, nat>)

  predicate TokenOk(s: Db, h: History, id: nat, t: Token) {
    && id < s.nextToken && t.family < s.nextFamily
    && (t.session.Some? ==> t.session.value in s.sessions && s.sessions[t.session.value].user == t.user)
    && (id !in h.succ ==> t.family in h.tail && h.tail[t.family] == id)
    && (!t.revoked ==> id !in h.taker && id !in h.succ)
    && (t.replacedBy.Some? ==> id in h.succ && h.succ[id] == t.replacedBy.value)
  }

  predicate RequestOk(s: Db, h: History, id: nat, r: Request) {
    && r.token in s.tokens
    && (TookToken(r.phase) ==> s.tokens[r.token].revoked && r.token in h.taker && h.taker[r.token] == id)
    && (r.phase.Claimed? ==> r.token !in h.succ)
    && (r.phase.Created? || r.phase.Linked? ==> r.token in h.succ && h.succ[r.token] == r.phase.successor)
    && (r.phase.Created? ==> s.tokens[r.token].replacedBy == None)
    && (r.phase.Linked? ==> s.tokens[r.token].replacedBy == Some(r.phase.successor))
  }

  predicate SuccessorOk(s: Db, h: History, t: nat) {
    t in h.succ ==>
      && Continues(s, t, h.succ[t])
      && h.succ[t] in h.pred && h.pred[h.succ[t]] == t
      && t in h.taker && h.taker[t] in s.requests
      && s.requests[h.taker[t]].token == t && HoldsSuccessor(s.requests[h.taker[t]])
  }

  // The explicit triggers keep the solver from walking along chains of successors.
  ghost predicate Inv(s: Db, h: History) {
    && (forall t {:trigger TokenOk(s, h, t, s.tokens[t])} :: t in s.tokens ==> TokenOk(s, h, t, s.tokens[t]))
    && (forall i :: i in s.sessions ==> i < s.nextSession)
    && (forall r {:trigger RequestOk(s, h, r, s.requests[r])} :: r in s.requests ==> RequestOk(s, h, r, s.requests[r]))
    && h.taker.Keys <= s.tokens.Keys
    && h.succ.Keys <= s.tokens.Keys
    && (forall t :: SuccessorOk(s, h, t))
  }

  /** What no step undoes: rows keep their identity, revocation and links are final. */
  predicate Grows(s: Db, s': Db) {
    forall t :: t in s.tokens ==>
      && t in s'.tokens
      && s'.tokens[t].user == s.tokens[t].user
      && s'.tokens[t].family == s.tokens[t].family
      && s'.tokens[t].session == s.tokens[t].session
      && (s.tokens[t].revoked ==> s'.tokens[t].revoked)
      && (s.tokens[t].replacedBy.Some? ==> s'.tokens[t].replacedBy == s.tokens[t].replacedBy)
  }

  // ---------------------------------------------------------------- every step keeps it

  /** Sessions may be added or renamed as long as none changes hands. */
  predicate SessionsKept(s: Db, s1: Db) {
    && s1 == s.(sessions := s1.sessions, nextSession := s1.nextSession)
    && (forall i :: i in s.sessions ==> i in s1.sessions && s1.sessions[i].user == s.sessions[i].user)
    && (forall i :: i in s1.sessions ==> i < s1.nextSession)
  }

  lemma SessionsKeptKeepsInv(s: Db, h: History, s1: Db)
    requires Inv(s, h) && SessionsKept(s, s1)
    ensures Inv(s1, h)
  {
    forall t | t in s1.tokens ensures TokenOk(s1, h, t, s1.tokens[t]) {
      assert TokenOk(s, h, t, s.tokens[t]);
    }
    forall r | r in s1.requests ensures RequestOk(s1, h, r, s1.requests[r]) {
      assert RequestOk(s, h, r, s.requests[r]);
    }
    forall t ensures SuccessorOk(s1, h, t) {
      assert SuccessorOk(s, h, t);
    }
  }

  lemma EnsureSessionKeeps(s: Db, h: History, user: nat, device: Device)
    requires Inv(s, h)
    ensures var (s1, session) := EnsureSession(s, user, device);
      && Inv(s1, h) && s1 == s.(sessions := s1.sessions, nextSession := s1.nextSession)
      && (session.Some? ==> session.value in s1.sessions && s1.sessions[session.value].user == user)
  {
    SessionsKeptKeepsInv(s, h, EnsureSession(s, user, device).0);
  }

  /** A new row under a fresh id, ending its family's chain, disturbs no older row. */
  lemma NewTailKeepsInv(s: Db, h: History, s': Db, h': History, id: nat, t: Token)
    requires Inv(s, h) && id == s.nextToken
    requires s' == s.(tokens := s.tokens[id := t], nextToken := id + 1, nextFamily := s'.nextFamily)
    requires s.nextFamily <= s'.nextFamily && t.family < s'.nextFamily
    requires !t.revoked && t.replacedBy == None
    requires t.session.Some? ==> t.session.value in s.sessions && s.sessions[t.session.value].user == t.user
    requires h' == h.(tail := h.tail[t.family := id])
    requires forall u :: u in s.tokens && s.tokens[u].family == t.family ==> u in h.succ
    ensures Inv(s', h') && Grows(s, s')
  {
    assert id !in s.tokens by { assert id in s.tokens ==> TokenOk(s, h, id, s.tokens[id]); }
    forall u | u in s.tokens ensures TokenOk(s', h', u, s.tokens[u]) {
      assert TokenOk(s, h, u, s.tokens[u]);
    }
    forall r | r in s'.requests ensures RequestOk(s', h', r, s'.requests[r]) {
      assert RequestOk(s, h, r, s.requests[r]);
    }
    forall u ensures SuccessorOk(s', h', u) {
      assert SuccessorOk(s, h, u);
    }
  }

  lemma LoginKeepsInv(s: Db, h: History, user: nat, device: Device, now: int) returns (h': History)
    requires Inv(s, h)
    ensures var s' := Step(s, Login(user, device, now)); Inv(s', h') && Grows(s, s')
  {
    EnsureSessionKeeps(s, h, user, device);
    var s1 := EnsureSession(s, user, device).0;
    var (s', id) := Persist(s, user, None, device, now);
    h' := h.(tail := h.tail[s.nextFamily := s.nextToken]);
    assert forall u :: u in s1.tokens ==> TokenOk(s1, h, u, s1.tokens[u]);
    NewTailKeepsInv(s1, h, s', h', id, s'.tokens[id]);
  }

  /** Revoking a row (and stamping it) disturbs nothing else. */
  lemma RevokingKeepsInv(s: Db, h: History, id: nat, t: Token)
    requires Inv(s, h) && id in s.tokens
    requires t == s.tokens[id].(revoked := true, usedAt := t.usedAt, graceUntil := t.graceUntil)
    ensures var s' := s.(tokens := s.tokens[id := t]); Inv(s', h) && Grows(s, s')
  {
    var s' := s.(tokens := s.tokens[id := t]);
    forall u | u in s'.tokens ensures TokenOk(s', h, u, s'.tokens[u]) {
      assert TokenOk(s, h, u, s.tokens[u]);
    }
    forall r | r in s'.requests ensures RequestOk(s', h, r, s'.requests[r]) {
      assert RequestOk(s, h, r, s.requests[r]);
    }
    forall u ensures SuccessorOk(s', h, u) {
      assert SuccessorOk(s, h, u);
    }
  }

  lemma TakingKeepsInv(s: Db, h: History, req: nat)
    requires Inv(s, h) && req in s.requests && s.requests[req].token in s.tokens
    requires s.tokens[s.requests[req].token].revoked
    requires s.requests[req].token !in h.taker && s.requests[req].token !in h.succ
    ensures Inv(SetPhase(s, req, Claimed), h.(taker := h.taker[s.requests[req].token := req]))
  {
    var s' := SetPhase(s, req, Claimed);
    var h' := h.(taker := h.taker[s.requests[req].token := req]);
    forall u | u in s'.tokens ensures TokenOk(s', h', u, s'.tokens[u]) {
      assert TokenOk(s, h, u, s.tokens[u]);
    }
    forall r | r in s'.requests ensures RequestOk(s', h', r, s'.requests[r]) {
      assert RequestOk(s, h, r, s.requests[r]);
    }
    forall u ensures SuccessorOk(s', h', u) {
      assert SuccessorOk(s, h, u);
    }
  }

  lemma ClaimKeepsInv(s: Db, h: History, req: nat, now: int) returns (h': History)
    requires Inv(s, h)
    ensures Inv(DoClaim(s, req, now), h') && Grows(s, DoClaim(s, req, now))
  {
    h' := h;
    if At(s, req, Rechecked) {
      var id := s.requests[req].token;
      var t := s.tokens[id];
      if t.revoked || t.expiresAt < now {
        RequestUpdateKeepsInv(s, h, req, DoClaim(s, req, now));
      } else {
        assert TokenOk(s, h, id, t);
        var t' := t.(revoked := true, usedAt := Some(now), graceUntil := Some(now + GRACE_MS));
        RevokingKeepsInv(s, h, id, t');
        var s1 := s.(tokens := s.tokens[id := t']);
        TakingKeepsInv(s1, h, req);
        h' := h.(taker := h.taker[id := req]);
      }
    }
  }

  lemma CreateKeepsInv(s: Db, h: History, req: nat, now: int) returns (h': History)
    requires Inv(s, h)
    ensures Inv(DoCreate(s, req, now), h') && Grows(s, DoCreate(s, req, now))
  {
    h' := h;
    if At(s, req, Claimed) {
      var r := s.requests[req];
      var t := s.tokens[r.token];
      assert RequestOk(s, h, req, r) && TokenOk(s, h, r.token, t);
      EnsureSessionKeeps(s, h, t.user, r.device);
      var s1 := EnsureSession(s, t.user, r.device).0;
      var (s2, id) := Persist(s, t.user, Some(t.family), r.device, now);
      var h1 := AfterCreate(s1, h, req, id);
      NewTailForCreate(s1, h, req, id, s2.tokens[id], s2);
      h' := h1;
    }
  }

  function AfterCreate(s: Db, h: History, req: nat, id: nat): History
    requires At(s, req, Claimed)
  {
    var token := s.requests[req].token;
    h.(tail := h.tail[s.tokens[token].family := id], succ := h.succ[token := id], pred := h.pred[id := token])
  }

  lemma NewTailForCreate(s: Db, h: History, req: nat, id: nat, t: Token, s': Db)
    requires Inv(s, h) && id == s.nextToken && At(s, req, Claimed)
    requires t.family == s.tokens[s.requests[req].token].family && t.user == s.tokens[s.requests[req].token].user
    requires s' == s.(tokens := s.tokens[id := t], nextToken := id + 1)
    requires !t.revoked && t.replacedBy == None
    requires t.session.Some? ==> t.session.value in s.sessions && s.sessions[t.session.value].user == t.user
    ensures var s2 := s'.(requests := s.requests[req := s.requests[req].(phase := Created(id))]);
      Inv(s2, AfterCreate(s, h, req, id)) && Grows(s, s2)
  {
    var token := s.requests[req].token;
    var s2 := s'.(requests := s.requests[req := s.requests[req].(phase := Created(id))]);
    var h' := AfterCreate(s, h, req, id);
    assert RequestOk(s, h, req, s.requests[req]) && TokenOk(s, h, token, s.tokens[token]);
    assert id !in s.tokens by { assert id in s.tokens ==> TokenOk(s, h, id, s.tokens[id]); }
    forall u | u in s.tokens ensures TokenOk(s2, h', u, s.tokens[u]) {
      assert TokenOk(s, h, u, s.tokens[u]);
    }
    forall q | q in s2.requests ensures RequestOk(s2, h', q, s2.requests[q]) {
      assert RequestOk(s, h, q, s.requests[q]);
    }
    forall u ensures SuccessorOk(s2, h', u) {
      assert SuccessorOk(s, h, u);
    }
  }

  lemma LinkKeepsInv(s: Db, h: History, req: nat)
    requires Inv(s, h)
    ensures Inv(DoLink(s, req), h) && Grows(s, DoLink(s, req))
  {
    var s' := DoLink(s, req);
    assert req in s.requests ==> RequestOk(s, h, req, s.requests[req]);
    forall t | t in s.tokens ensures TokenOk(s', h, t, s'.tokens[t]) {
      assert TokenOk(s, h, t, s.tokens[t]);
    }
    forall r | r in s'.requests ensures RequestOk(s', h, r, s'.requests[r]) {
      assert RequestOk(s, h, r, s.requests[r]);
    }
    forall u ensures SuccessorOk(s', h, u) {
      assert SuccessorOk(s, h, u);
    }
  }

  lemma PresentKeepsInv(s: Db, h: History, req: nat, token: nat, verified: bool, device: Device, now: int)
    requires Inv(s, h)
    ensures var s' := DoPresent(s, req, token, verified, device, now); Inv(s', h) && Grows(s, s')
  {
    var s' := DoPresent(s, req, token, verified, device, now);
    RequestUpdateKeepsInv(s, h, req, s');
  }

  lemma RecheckKeepsInv(s: Db, h: History, req: nat, now: int)
    requires Inv(s, h)
    ensures Inv(DoRecheck(s, req, now), h) && Grows(s, DoRecheck(s, req, now))
  {
    RequestUpdateKeepsInv(s, h, req, DoRecheck(s, req, now));
  }

  lemma RequestUpdateKeepsInv(s: Db, h: History, req: nat, s': Db)
    requires Inv(s, h)
    requires s' == s || (req in s'.requests && s' == s.(requests := s.requests[req := s'.requests[req]])
                         && !TookToken(s'.requests[req].phase) && s'.requests[req].token in s.tokens
                         && (req in s.requests ==> !HoldsSuccessor(s.requests[req])))
    ensures Inv(s', h) && Grows(s, s')
  {
    forall t | t in s'.tokens ensures TokenOk(s', h, t, s'.tokens[t]) {
      assert TokenOk(s, h, t, s.tokens[t]);
    }
    forall r | r in s'.requests ensures RequestOk(s', h, r, s'.requests[r]) {
      assert r in s.requests ==> RequestOk(s, h, r, s.requests[r]);
    }
    forall u ensures SuccessorOk(s', h, u) {
      assert SuccessorOk(s, h, u);
    }
  }

  lemma LogoutKeepsInv(s: Db, h: History, user: nat, token: nat)
    requires Inv(s, h)
    ensures Inv(DoLogout(s, user, token), h) && Grows(s, DoLogout(s, user, token))
  {
    if token in s.tokens {
      RevokingKeepsInv(s, h, token, s.tokens[token].(revoked := true));
    }
  }

  lemma RevokeSessionKeepsInv(s: Db, h: History, session: nat)
    requires Inv(s, h)
    ensures Inv(DoRevokeSession(s, session), h) && Grows(s, DoRevokeSession(s, session))
  {
    SessionsKeptKeepsInv(s, h, DoRevokeSession(s, session));
  }

  lemma StepKeepsInv(s: Db, h: History, e: Event) returns (h': History)
    requires Inv(s, h)
    ensures Inv(Step(s, e), h') && Grows(s, Step(s, e))
  {
    h' := h;
    match e
    case Login(user, device, now) => h' := LoginKeepsInv(s, h, user, device, now);
    case Present(req, token, verified, device, now) => PresentKeepsInv(s, h, req, token, verified, device, now);
    case Recheck(req, now) => RecheckKeepsInv(s, h, req, now);
    case Claim(req, now) => h' := ClaimKeepsInv(s, h, req, now);
    case Create(req, now) => h' := CreateKeepsInv(s, h, req, now);
    case Link(req) => LinkKeepsInv(s, h, req);
    case Logout(user, token) => LogoutKeepsInv(s, h, user, token);
    case RevokeSession(session) => RevokeSessionKeepsInv(s, h, session);
  }

  lemma {:induction false} RunKeepsInv(s: Db, h: History, events: seq<Event>) returns (h': History)
    requires Inv(s, h)
    ensures Inv(Run(s, events), h') && Grows(s, Run(s, events))
  {
    h' := h;
    if events != [] {
      var h1 := RunKeepsInv(s, h, events[..|events| - 1]);
      h' := StepKeepsInv(Run(s, events[..|events| - 1]), h1, events[|events| - 1]);
    }
  }

  // ---------------------------------------------------------------- what every run guarantees

  const NO_HISTORY := History(map[], map[], map[], map[])

  predicate OneLivePerFamily(s: Db) {
    forall t, u | t in s.tokens && u in s.tokens && s.tokens[t].family == s.tokens[u].family
                  && !s.tokens[t].revoked && !s.tokens[u].revoked :: t == u
  }

  /** However many requests present a token, one at most creates its successor. */
  predicate OneSuccessor(s: Db) {
    forall r, q | r in s.requests && q in s.requests && HoldsSuccessor(s.requests[r]) && HoldsSuccessor(s.requests[q])
                  && s.requests[r].token == s.requests[q].token :: r == q
  }

  predicate OnePredecessor(s: Db) {
    forall r, q | r in s.requests && q in s.requests && HoldsSuccessor(s.requests[r]) && HoldsSuccessor(s.requests[q])
                  && s.requests[r].phase.successor == s.requests[q].phase.successor :: r == q
  }

  predicate LinksStayInFamily(s: Db) {
    forall t | t in s.tokens && s.tokens[t].replacedBy.Some? ::
      s.tokens[t].revoked && Continues(s, t, s.tokens[t].replacedBy.value)
  }

  predicate SessionsOwned(s: Db) {
    forall t | t in s.tokens && s.tokens[t].session.Some? ::
      s.tokens[t].session.value in s.sessions && s.sessions[s.tokens[t].session.value].user == s.tokens[t].user
  }

  lemma RowsAreSafe(s: Db, h: History)
    requires Inv(s, h)
    ensures OneLivePerFamily(s) && LinksStayInFamily(s) && SessionsOwned(s)
  {
    forall t | t in s.tokens && s.tokens[t].replacedBy.Some?
      ensures s.tokens[t].revoked && Continues(s, t, s.tokens[t].replacedBy.value)
    {
      assert TokenOk(s, h, t, s.tokens[t]) && SuccessorOk(s, h, t);
    }
    forall t | t in s.tokens && !s.tokens[t].revoked
      ensures s.tokens[t].family in h.tail && h.tail[s.tokens[t].family] == t
    {
      assert TokenOk(s, h, t, s.tokens[t]);
    }
    forall t | t in s.tokens && s.tokens[t].session.Some?
      ensures s.tokens[t].session.value in s.sessions && s.sessions[s.tokens[t].session.value].user == s.tokens[t].user
    {
      assert TokenOk(s, h, t, s.tokens[t]);
    }
  }

  lemma RequestsAreSafe(s: Db, h: History)
    requires Inv(s, h)
    ensures OneSuccessor(s) && OnePredecessor(s)
  {
    forall r | r in s.requests && HoldsSuccessor(s.requests[r])
      ensures s.requests[r].token in h.taker && h.taker[s.requests[r].token] == r
      ensures s.requests[r].phase.successor in h.pred && h.pred[s.requests[r].phase.successor] == s.requests[r].token
    {
      assert RequestOk(s, h, r, s.requests[r]) && SuccessorOk(s, h, s.requests[r].token);
    }
  }

  /** Over every interleaving of logins, refreshes and logouts: at most one live token per family,
      at most one successor per token and one predecessor per successor, replacement links within
      one user and family, and device sessions that belong to the token's user. */
  lemma RotationIsSafe(events: seq<Event>)
    ensures var s := Run(EMPTY_DB, events);
      OneLivePerFamily(s) && OneSuccessor(s) && OnePredecessor(s) && LinksStayInFamily(s) && SessionsOwned(s)
  {
    var h := RunKeepsInv(EMPTY_DB, NO_HISTORY, events);
    RowsAreSafe(Run(EMPTY_DB, events), h);
    RequestsAreSafe(Run(EMPTY_DB, events), h);
  }

  /** Whatever happens after a prefix of a run, a revoked token stays revoked and keeps its owner. */
  lemma RevocationIsFinal(before: seq<Event>, after: seq<Event>)
    ensures Grows(Run(EMPTY_DB, before), Run(Run(EMPTY_DB, before), after))
  {
    var h := RunKeepsInv(EMPTY_DB, NO_HISTORY, before);
    var _ := RunKeepsInv(Run(EMPTY_DB, before), h, after);
  }

  function Follow(s: Db, t: nat, k: nat): Option<nat>
    decreases k
  {
    if k == 0 then Some(t)
    else if t in s.tokens && s.tokens[t].replacedBy.Some? then Follow(s, s.tokens[t].replacedBy.value, k - 1)
    else None
  }

  lemma {:induction false} LinksClimb(s: Db, h: History, t: nat, k: nat)
    requires Inv(s, h) && k > 0
    ensures Follow(s, t, k).Some? ==> t < Follow(s, t, k).value
    decreases k
  {
    if t in s.tokens && s.tokens[t].replacedBy.Some? {
      assert TokenOk(s, h, t, s.tokens[t]) && SuccessorOk(s, h, t);
      if k > 1 {
        LinksClimb(s, h, s.tokens[t].replacedBy.value, k - 1);
      }
    }
  }

  /** Following replacedBy links never comes back to a token already visited. */
  lemma LinksAreAcyclic(events: seq<Event>, t: nat, k: nat)
    requires k > 0
    ensures Follow(Run(EMPTY_DB, events), t, k) != Some(t)
  {
    var h := RunKeepsInv(EMPTY_DB, NO_HISTORY, events);
    LinksClimb(Run(EMPTY_DB, events), h, t, k);
  }

  predicate Quiet(s: Db) {
    forall r :: r in s.requests ==> !s.requests[r].phase.Created?
  }

  lemma {:induction false} TailIsReached(s: Db, h: History, t: nat) returns (k: nat)
    requires Inv(s, h) && Quiet(s) && t in s.tokens
    ensures var end := Follow(s, t, k);
      && end.Some? && end.value in s.tokens && s.tokens[end.value].replacedBy == None
      && s.tokens[end.value].family == s.tokens[t].family
    decreases s.nextToken - t
  {
    assert TokenOk(s, h, t, s.tokens[t]) && SuccessorOk(s, h, t);
    if s.tokens[t].replacedBy.Some? {
      var n := s.tokens[t].replacedBy.value;
      assert TokenOk(s, h, n, s.tokens[n]);
      var k' := TailIsReached(s, h, n);
      k := k' + 1;
    } else {
      k := 0;
    }
  }

  /** Whenever no rotation stands between creating a token and linking it, every family is one
      chain: all its tokens lead to a single last token, the only one that can still be live. */
  lemma FamilyIsOneChain(events: seq<Event>, t: nat, u: nat) returns (i: nat, j: nat)
    requires var s := Run(EMPTY_DB, events);
      Quiet(s) && t in s.tokens && u in s.tokens && s.tokens[t].family == s.tokens[u].family
    ensures var s := Run(EMPTY_DB, events);
      && Follow(s, t, i).Some? && Follow(s, t, i) == Follow(s, u, j)
      && Follow(s, t, i).value in s.tokens && s.tokens[Follow(s, t, i).value].replacedBy == None
      && (forall v :: v in s.tokens && s.tokens[v].family == s.tokens[t].family && v != Follow(s, t, i).value ==>
            s.tokens[v].revoked)
  {
    var h := RunKeepsInv(EMPTY_DB, NO_HISTORY, events);
    var s := Run(EMPTY_DB, events);
    i := TailIsReached(s, h, t);
    j := TailIsReached(s, h, u);
    forall v | v in s.tokens && s.tokens[v].replacedBy == None ensures v !in h.succ {
      assert SuccessorOk(s, h, v);
      assert v in h.succ ==> RequestOk(s, h, h.taker[v], s.requests[h.taker[v]]);
    }
    assert forall v :: v in s.tokens ==> TokenOk(s, h, v, s.tokens[v]);
  }

  // ---------------------------------------------------------------- the session of a new token

  /** The newest unrevoked session of this user and install. */
  predicate IsNewest(s: Db, user: nat, installId: string, id: nat) {
    && Usable(s, id, user) && s.sessions[id].installId == installId
    && forall j :: j in s.sessions && j > id && Usable(s, j, user) ==> s.sessions[j].installId != installId
  }

  /** Which session a new token belongs to: the named one if it is the user's and not revoked (it then
      takes over the install id reported); without install id none; the newest of this install, if there
      is one; else a session of its own, the only one ever added. */
  predicate SessionFor(s: Db, s': Db, user: nat, device: Device, session: Option<nat>) {
    if device.session.Some? && Usable(s, device.session.value, user) then
      var id := device.session.value;
      && session == Some(id) && s'.nextSession == s.nextSession
      && s'.sessions == (if device.installId == "" then s.sessions
                         else s.sessions[id := s.sessions[id].(installId := device.installId)])
    else if device.installId == "" then session == None && s'.sessions == s.sessions
    else if exists id :: id in s.sessions && IsNewest(s, user, device.installId, id) then
      session.Some? && IsNewest(s, user, device.installId, session.value) && s'.sessions == s.sessions
    else
      && session == Some(s.nextSession)
      && s'.sessions == s.sessions[s.nextSession := Session(user, device.installId, false)]
  }

  lemma EnsureIsExact(s: Db, h: History, user: nat, device: Device)
    requires Inv(s, h)
    ensures var (s', session) := EnsureSession(s, user, device); SessionFor(s, s', user, device, session)
  {
    var newest := NewestFor(s, user, device.installId, s.nextSession);
    if device.session.Some? && Usable(s, device.session.value, user) {
      var id := device.session.value;
      if device.installId == "" { assert s.sessions[id := s.sessions[id]] == s.sessions; }
    } else if newest.Some? {
      assert IsNewest(s, user, device.installId, newest.value);
    }
  }

  // ---------------------------------------------------------------- a rotation that nothing disturbs

  /** Stored, not revoked, and not expired at any of the given times. */
  predicate Live(s: Db, token: nat, times: seq<int>) {
    && token in s.tokens && !s.tokens[token].revoked
    && forall i :: 0 <= i < |times| ==> times[i] <= s.tokens[token].expiresAt
  }

  /** The five statements of one refresh, with the times at which they run. */
  function Rotation(req: nat, token: nat, verified: bool, device: Device, at: seq<int>): seq<Event>
    requires |at| == 4
  {
    [Present(req, token, verified, device, at[0]), Recheck(req, at[1]), Claim(req, at[2]), Create(req, at[3]),
     Link(req)]
  }

  /** The device data of a refresh: without a session of its own it keeps the token's. */
  function DeviceOf(t: Token, device: Device): Device {
    if device.session.Some? then device else Device(t.session, device.installId)
  }

  /** Request req has replaced the token: revoked and linked to a new live one of the same user and
      family, with a full lifetime and the right session, while no other row or request has changed. */
  ghost predicate Replaced(s: Db, s': Db, req: nat, token: nat, device: Device, at: seq<int>)
    requires |at| == 4 && token in s.tokens
  {
    && req in s'.requests && s'.requests[req].phase.Linked?
    && s'.requests == s.requests[req := s'.requests[req]] && s'.requests[req].token == token
    && var (t, n) := (s.tokens[token], s'.requests[req].phase.successor);
    && n !in s.tokens && s'.tokens.Keys == s.tokens.Keys + {n}
    && (forall i :: i in s.tokens && i != token ==> s'.tokens[i] == s.tokens[i])
    && s'.tokens[token] == t.(revoked := true, usedAt := Some(at[2]), graceUntil := Some(at[2] + 60_000),
                              replacedBy := Some(n))
    && s'.tokens[n] == Token(t.user, t.family, s'.tokens[n].session, false, at[3] + 30 * 24 * 3_600_000,
                             None, None, None)
    && SessionFor(s, s', t.user, DeviceOf(t, device), s'.tokens[n].session)
  }

  lemma RunOneMore(s: Db, events: seq<Event>, e: Event)
    ensures Run(s, events + [e]) == Step(Run(s, events), e)
  {
    assert (events + [e])[..|events|] == events;
  }

  lemma RunFive(s: Db, a: Event, b: Event, c: Event, d: Event, e: Event)
    ensures Run(s, [a, b, c, d, e]) == Step(Step(Step(Step(Step(s, a), b), c), d), e)
  {
    assert [] + [a] == [a] && [a] + [b] == [a, b] && [a, b] + [c] == [a, b, c];
    assert [a, b, c] + [d] == [a, b, c, d] && [a, b, c, d] + [e] == [a, b, c, d, e];
    RunOneMore(s, [], a);
    RunOneMore(s, [a], b);
    RunOneMore(s, [a, b], c);
    RunOneMore(s, [a, b, c], d);
    RunOneMore(s, [a, b, c, d], e);
  }

  /** A request for a live token has the token claimed, if nobody interferes. */
  lemma TakenIfLive(s: Db, req: nat, token: nat, verified: bool, device: Device, at: seq<int>)
    requires |at| == 4 && req !in s.requests
    ensures var s3 := Step(Step(Step(s, Present(req, token, verified, device, at[0])), Recheck(req, at[1])),
                           Claim(req, at[2]));
      var won := verified && Live(s, token, at[..3]);
      && s3 == s.(tokens := s3.tokens, requests := s3.requests)
      && (if won then
            && req in s3.requests && s3.requests == s.requests[req := s3.requests[req]]
            && s3.requests[req] == Request(token, DeviceOf(s.tokens[token], device), Claimed)
            && s3.tokens == s.tokens[token := s.tokens[token].(revoked := true, usedAt := Some(at[2]),
                                                               graceUntil := Some(at[2] + 60_000))]
          else
            && s3.tokens == s.tokens
            && (req in s3.requests ==>
                  s3.requests == s.requests[req := s3.requests[req]] && s3.requests[req].phase == Refused))
  {
    assert at[..3][0] == at[0] && at[..3][1] == at[1] && at[..3][2] == at[2];
  }

  lemma CreatedAndLinked(s: Db, h: History, req: nat, now: int)
    requires Inv(s, h) && At(s, req, Claimed)
    ensures var (s', token) := (Step(Step(s, Create(req, now)), Link(req)), s.requests[req].token);
      && req in s'.requests && s'.requests == s.requests[req := s'.requests[req]] && s'.requests[req].token == token
      && s'.requests[req].phase.Linked?
      && var n := s'.requests[req].phase.successor;
      && n !in s.tokens && n in s'.tokens
      && s'.tokens == s.tokens[token := s.tokens[token].(replacedBy := Some(n))][n := s'.tokens[n]]
      && s'.tokens[n] == Token(s.tokens[token].user, s.tokens[token].family, s'.tokens[n].session, false,
                               now + 30 * 24 * 3_600_000, None, None, None)
      && SessionFor(s, s', s.tokens[token].user, s.requests[req].device, s'.tokens[n].session)
  {
    assert s.nextToken in s.tokens ==> TokenOk(s, h, s.nextToken, s.tokens[s.nextToken]);
    EnsureIsExact(s, h, s.tokens[s.requests[req].token].user, s.requests[req].device);
  }

  /** A claim and a link, taken together. */
  lemma ReplacedInAll(s: Db, s3: Db, s': Db, req: nat, token: nat, device: Device, at: seq<int>)
    requires |at| == 4 && token in s.tokens
    requires var t := s.tokens[token];
      && s3 == s.(tokens := s.tokens[token := t.(revoked := true, usedAt := Some(at[2]),
                                                 graceUntil := Some(at[2] + 60_000))],
                  requests := s.requests[req := Request(token, DeviceOf(t, device), Claimed)])
    requires req in s'.requests && s'.requests == s3.requests[req := s'.requests[req]]
    requires s'.requests[req].token == token && s'.requests[req].phase.Linked?
    requires var (n, t) := (s'.requests[req].phase.successor, s3.tokens[token]);
      && n !in s3.tokens && n in s'.tokens
      && s'.tokens == s3.tokens[token := t.(replacedBy := Some(n))][n := s'.tokens[n]]
      && s'.tokens[n] == Token(t.user, t.family, s'.tokens[n].session, false, at[3] + 30 * 24 * 3_600_000,
                               None, None, None)
      && SessionFor(s3, s', t.user, s3.requests[req].device, s'.tokens[n].session)
    ensures Replaced(s, s', req, token, device, at)
  {
    var user, reported := s.tokens[token].user, DeviceOf(s.tokens[token], device);
    forall id ensures IsNewest(s3, user, reported.installId, id) <==> IsNewest(s, user, reported.installId, id) { }
  }

  lemma ThreeStepsKeepInv(s: Db, h: History, a: Event, b: Event, c: Event) returns (h': History)
    requires Inv(s, h)
    ensures Inv(Step(Step(Step(s, a), b), c), h')
  {
    var h1 := StepKeepsInv(s, h, a);
    var h2 := StepKeepsInv(Step(s, a), h1, b);
    h' := StepKeepsInv(Step(Step(s, a), b), h2, c);
  }

  /** After any run, an undisturbed refresh replaces its token if and only if the token is stored, live
      and unexpired at its lookup, recheck and claim, and its signature is good; otherwise it changes
      no token. */
  lemma RefreshSucceedsIff(before: seq<Event>, req: nat, token: nat, verified: bool, device: Device, at: seq<int>)
    requires |at| == 4 && req !in Run(EMPTY_DB, before).requests
    ensures var s := Run(EMPTY_DB, before);
      var s' := Run(s, Rotation(req, token, verified, device, at));
      if verified && Live(s, token, at[..3]) then Replaced(s, s', req, token, device, at)
      else s'.tokens == s.tokens && (req in s'.requests ==> s'.requests[req].phase == Refused)
  {
    var s := Run(EMPTY_DB, before);
    var a, b, c := Present(req, token, verified, device, at[0]), Recheck(req, at[1]), Claim(req, at[2]);
    var s3 := Step(Step(Step(s, a), b), c);
    RunFive(s, a, b, c, Create(req, at[3]), Link(req));
    TakenIfLive(s, req, token, verified, device, at);
    if verified && Live(s, token, at[..3]) {
      var h := RunKeepsInv(EMPTY_DB, NO_HISTORY, before);
      var h3 := ThreeStepsKeepInv(s, h, a, b, c);
      CreatedAndLinked(s3, h3, req, at[3]);
      ReplacedInAll(s, s3, Step(Step(s3, Create(req, at[3])), Link(req)), req, token, device, at);
    } else {
      RefusedRests(s3, req, at[3]);
    }
  }

  lemma RefusedRests(s: Db, req: nat, now: int)
    requires req in s.requests ==> s.requests[req].phase == Refused
    ensures Step(Step(s, Create(req, now)), Link(req)) == s
  {
  }

  // ---------------------------------------------------------------- a claimed request finishes

  /** A statement of this request's own transaction. */
  predicate Own(e: Event, req: nat) {
    (e.Recheck? || e.Claim? || e.Create? || e.Link?) && e.req == req
  }

  lemma OtherLeavesRequest(s: Db, e: Event, req: nat)
    requires req in s.requests && !Own(e, req)
    ensures req in Step(s, e).requests && Step(s, e).requests[req] == s.requests[req]
  {
  }

  lemma {:induction false} OthersLeaveRequest(s: Db, events: seq<Event>, req: nat)
    requires req in s.requests && forall e :: e in events ==> !Own(e, req)
    ensures req in Run(s, events).requests && Run(s, events).requests[req] == s.requests[req]
  {
    if events != [] {
      var n := |events| - 1;
      assert events[n] in events && forall e :: e in events[..n] ==> e in events;
      OthersLeaveRequest(s, events[..n], req);
      OtherLeavesRequest(Run(s, events[..n]), events[n], req);
    }
  }

  lemma CreateStep(s: Db, h: History, req: nat, now: int) returns (h': History, n: nat)
    requires Inv(s, h) && At(s, req, Claimed)
    ensures var s' := Step(s, Create(req, now));
      && Inv(s', h') && req in s'.requests && s'.requests[req] == s.requests[req].(phase := Created(n))
      && n !in s.tokens
  {
    n := s.nextToken;
    assert n in s.tokens ==> TokenOk(s, h, n, s.tokens[n]);
    h' := StepKeepsInv(s, h, Create(req, now));
  }

  lemma LinkStep(s: Db, h: History, req: nat, n: nat)
    requires Inv(s, h) && req in s.requests && s.requests[req].phase == Created(n)
    ensures var (s', token) := (Step(s, Link(req)), s.requests[req].token);
      && req in s'.requests && s'.requests[req] == s.requests[req].(phase := Linked(n))
      && Continues(s', token, n) && s'.tokens[token].replacedBy == Some(n)
  {
    assert RequestOk(s, h, req, s.requests[req]) && SuccessorOk(s, h, s.requests[req].token);
  }

  /** Once a request has claimed its token, it replaces it whenever its last two statements get their
      turn, whatever all others do before and in between. */
  lemma ClaimedRequestsFinish(before: seq<Event>, a: seq<Event>, b: seq<Event>, req: nat, now: int)
    requires At(Run(EMPTY_DB, before), req, Claimed)
    requires forall e :: e in a || e in b ==> !Own(e, req)
    ensures var s := Run(EMPTY_DB, before);
      var s' := Step(Run(Step(Run(s, a), Create(req, now)), b), Link(req));
      && req in s'.requests && s'.requests[req].phase.Linked? && s'.requests[req].token == s.requests[req].token
      && var (token, n) := (s.requests[req].token, s'.requests[req].phase.successor);
      && n !in s.tokens && Continues(s', token, n) && s'.tokens[token].replacedBy == Some(n)
  {
    var s := Run(EMPTY_DB, before);
    var h := RunKeepsInv(EMPTY_DB, NO_HISTORY, before);
    var h1 := RunKeepsInv(s, h, a);
    OthersLeaveRequest(s, a, req);
    var h2, n := CreateStep(Run(s, a), h1, req, now);
    var s2 := Step(Run(s, a), Create(req, now));
    var h3 := RunKeepsInv(s2, h2, b);
    OthersLeaveRequest(s2, b, req);
    LinkStep(Run(s2, b), h3, req, n);
  }

  // ---------------------------------------------------------------- who took a token

  /** The event is the claim that revoked the token. */
  predicate Takes(s: Db, e: Event, req: nat, token: nat) {
    && e.Claim? && e.req == req && req in s.requests && s.requests[req].token == token
    && Live(s, token, [e.now])
    && token in Step(s, e).tokens && Step(s, e).tokens[token].revoked
    && Step(s, e).tokens[token].usedAt == Some(e.now)
  }

  lemma PhaseStep(s: Db, h: History, e: Event, req: nat)
    requires Inv(s, h) && req in Step(s, e).requests && TookToken(Step(s, e).requests[req].phase)
    ensures req in s.requests && s.requests[req].token == Step(s, e).requests[req].token
    ensures TookToken(s.requests[req].phase) || Takes(s, e, req, s.requests[req].token)
  {
    assert req in s.requests ==> RequestOk(s, h, req, s.requests[req]);
  }

  /** Over every interleaving: a request that got as far as taking its token, or creating or linking
      a successor, claimed the token at a moment when it was live and unexpired. */
  lemma {:induction false} TakenWhileLive(events: seq<Event>, req: nat) returns (k: nat)
    requires var s := Run(EMPTY_DB, events); req in s.requests && TookToken(s.requests[req].phase)
    ensures k < |events|
    ensures Takes(Run(EMPTY_DB, events[..k]), events[k], req, Run(EMPTY_DB, events).requests[req].token)
  {
    var n := |events| - 1;
    var s := Run(EMPTY_DB, events[..n]);
    var h := RunKeepsInv(EMPTY_DB, NO_HISTORY, events[..n]);
    PhaseStep(s, h, events[n], req);
    if TookToken(s.requests[req].phase) {
      k := TakenWhileLive(events[..n], req);
      assert events[..n][..k] == events[..k];
    } else {
      k := n;
    }
  }

  // ---------------------------------------------------------------- what presenting a token answers

  /** A token carries its use and its grace period together, and both only once revoked. */
  predicate GraceOk(t: Token) {
    if t.usedAt.None? then t.graceUntil.None? else t.revoked && t.graceUntil == Some(t.usedAt.value + 60_000)
  }

  lemma {:induction false} RunKeepsGrace(events: seq<Event>)
    ensures forall t :: t in Run(EMPTY_DB, events).tokens ==> GraceOk(Run(EMPTY_DB, events).tokens[t])
  {
    if events != [] {
      RunKeepsGrace(events[..|events| - 1]);
      StepKeepsGrace(Run(EMPTY_DB, events[..|events| - 1]), events[|events| - 1]);
    }
  }

  lemma StepKeepsGrace(s: Db, e: Event)
    requires forall t :: t in s.tokens ==> GraceOk(s.tokens[t])
    ensures forall t :: t in Step(s, e).tokens ==> GraceOk(Step(s, e).tokens[t])
  {
  }

  /** After any run the lookup answers, in this order: unknown; revoked, which for the first minute
      after its use reads as already rotated; expired; badly signed; and otherwise go on. */
  lemma AnswersAreExact(events: seq<Event>, token: nat, verified: bool, now: int)
    ensures var (s, answer) := (Run(EMPTY_DB, events), Inspect(Run(EMPTY_DB, events), token, verified, now));
      if token !in s.tokens then answer == UnknownToken
      else
        var t := s.tokens[token];
        && (answer == AlreadyRotated <==> t.usedAt.Some? && now < t.usedAt.value + 60_000)
        && (answer == RevokedToken <==> t.revoked && (t.usedAt.Some? ==> now >= t.usedAt.value + 60_000))
        && (answer == ExpiredToken <==> !t.revoked && now > t.expiresAt)
        && (answer == BadSignature <==> Live(s, token, [now]) && !verified)
        && (answer == Proceed <==> Live(s, token, [now]) && verified)
  {
    RunKeepsGrace(events);
    assert [now][0] == now;
  }

  /** Logging out with one's own token locks it out for good: whatever happens then, presenting it
      opens no request and no request takes it any more.  Another user's logout does nothing. */
  lemma LogoutLocksOut(before: seq<Event>, user: nat, token: nat, after: seq<Event>)
    ensures var s := Run(EMPTY_DB, before);
      var s1 := Step(s, Logout(user, token));
      && (token in s.tokens && s.tokens[token].user == user ==>
            && s1.tokens == s.tokens[token := s.tokens[token].(revoked := true)]
            && s1 == s.(tokens := s1.tokens)
            && token in Run(s1, after).tokens && Run(s1, after).tokens[token].revoked)
      && (token in s.tokens && s.tokens[token].user != user ==> s1 == s)
  {
    var s := Run(EMPTY_DB, before);
    var h := RunKeepsInv(EMPTY_DB, NO_HISTORY, before);
    var h1 := StepKeepsInv(s, h, Logout(user, token));
    var _ := RunKeepsInv(Step(s, Logout(user, token)), h1, after);
  }

  // ---------------------------------------------------------------- logins and revoked sessions

  /** The new row of a login. */
  predicate Opens(s: Db, s': Db, user: nat, now: int, n: nat) {
    && n !in s.tokens && n in s'.tokens && s'.tokens == s.tokens[n := s'.tokens[n]]
    && var t := s'.tokens[n];
    && t == Token(user, t.family, t.session, false, now + 30 * 24 * 3_600_000, None, None, None)
    && forall i :: i in s.tokens ==> s.tokens[i].family != t.family
  }

  /** After any run a login stores one new live token, of a family of its own, in the right session. */
  lemma LoginStores(before: seq<Event>, user: nat, device: Device, now: int) returns (n: nat)
    ensures var (s, s') := (Run(EMPTY_DB, before), Step(Run(EMPTY_DB, before), Login(user, device, now)));
      s'.requests == s.requests && Opens(s, s', user, now, n) && SessionFor(s, s', user, device, s'.tokens[n].session)
  {
    var s := Run(EMPTY_DB, before);
    var h := RunKeepsInv(EMPTY_DB, NO_HISTORY, before);
    EnsureIsExact(s, h, user, device);
    n := s.nextToken;
    assert n in s.tokens ==> TokenOk(s, h, n, s.tokens[n]);
    forall i | i in s.tokens ensures s.tokens[i].family != s.nextFamily { assert TokenOk(s, h, i, s.tokens[i]); }
  }

  lemma {:induction false} DeadThroughout(s: Db, h: History, events: seq<Event>, session: nat)
    requires Inv(s, h) && session in s.sessions && s.sessions[session].revoked
    ensures var s' := Run(s, events);
      && session in s'.sessions && s'.sessions[session].revoked
      && forall t :: t in s'.tokens && t !in s.tokens ==> s'.tokens[t].session != Some(session)
  {
    if events != [] {
      var n := |events| - 1;
      DeadThroughout(s, h, events[..n], session);
      var h1 := RunKeepsInv(s, h, events[..n]);
      DeadStaysDead(Run(s, events[..n]), h1, events[n], session);
    }
  }

  lemma DeadStaysDead(s: Db, h: History, e: Event, session: nat)
    requires Inv(s, h) && session in s.sessions && s.sessions[session].revoked
    ensures var s' := Step(s, e);
      && session in s'.sessions && s'.sessions[session].revoked
      && (forall t :: t in s.tokens ==> t in s'.tokens && s'.tokens[t].session == s.tokens[t].session)
      && forall t :: t in s'.tokens && t !in s.tokens ==> s'.tokens[t].session != Some(session)
  {
    var _ := StepKeepsInv(s, h, e);
  }

  /** Revoking a session changes that session only, and for good: whatever happens then, it stays revoked
      and no token made since belongs to it. */
  lemma RevokedSessionIsDead(before: seq<Event>, session: nat, after: seq<Event>)
    ensures var s := Run(EMPTY_DB, before);
      var s1 := Step(s, RevokeSession(session));
      if session !in s.sessions then s1 == s
      else
        && var found := s.sessions[session];
        && s1 == s.(sessions := s.sessions[session := Session(found.user, found.installId, true)])
        && var s' := Run(s1, after);
        && session in s'.sessions && s'.sessions[session].revoked
        && forall t :: t in s'.tokens && t !in s.tokens ==> s'.tokens[t].session != Some(session)
  {
    var s := Run(EMPTY_DB, before);
    if session in s.sessions {
      var h := RunKeepsInv(EMPTY_DB, NO_HISTORY, before);
      var h1 := StepKeepsInv(s, h, RevokeSession(session));
      DeadThroughout(Step(s, RevokeSession(session)), h1, after, session);
    }
  }

  // ---------------------------------------------------------------- the stored tables

  /** The tables as the service updates them, statement by statement. */
  class TokenStore {
    var tokens: map<nat, Token>
    var nextToken: nat
    var sessions: map<nat, Session>
    var nextSession: nat
    var nextFamily: nat
    var requests: map<nat, Request>

    ghost function View(): Db
      reads this
    {
      Db(tokens, nextToken, sessions, nextSession, nextFamily, requests)
    }

    constructor ()
      ensures View() == EMPTY_DB
    {
      tokens, sessions, requests := map[], map[], map[];
      nextToken, nextSession, nextFamily := 0, 0, 0;
    }

    method EnsureDeviceSession(user: nat, device: Device) returns (session: Option<nat>)
      modifies `sessions, `nextSession
      ensures (View(), session) == EnsureSession(old(View()), user, device)
    {
      if device.session.Some? {
        var id := device.session.value;
        if id in sessions && sessions[id].user == user && !sessions[id].revoked {
          var kept := if device.installId != "" then device.installId else sessions[id].installId;
          sessions := sessions[id := sessions[id].(installId := kept)];
          return device.session;
        }
      }
      if device.installId == "" { return None; }
      var i := nextSession;
      while i > 0
        invariant NewestFor(View(), user, device.installId, nextSession)
               == NewestFor(View(), user, device.installId, i)
      {
        i := i - 1;
        if i in sessions && sessions[i].user == user && !sessions[i].revoked
            && sessions[i].installId == device.installId {
          return Some(i);
        }
      }
      session := Some(nextSession);
      sessions := sessions[nextSession := Session(user, device.installId, false)];
      nextSession := nextSession + 1;
    }

    method PersistToken(user: nat, family: Option<nat>, device: Device, now: int) returns (id: nat)
      modifies this
      ensures (View(), id) == Persist(old(View()), user, family, device, now)
    {
      var session := EnsureDeviceSession(user, device);
      var chain := nextFamily;
      if family.Some? { chain := family.value; } else { nextFamily := nextFamily + 1; }
      id := nextToken;
      tokens := tokens[id := Token(user, chain, session, false, now + LIFETIME_MS, None, None, None)];
      nextToken := nextToken + 1;
    }

    method LogIn(user: nat, device: Device, now: int) returns (id: nat)
      modifies this
      ensures View() == Step(old(View()), Login(user, device, now))
    {
      id := PersistToken(user, None, device, now);
    }

    method Present(req: nat, token: nat, verified: bool, device: Device, now: int) returns (answer: Answer)
      requires req !in requests
      modifies `requests
      ensures answer == Inspect(old(View()), token, verified, now)
      ensures View() == Step(old(View()), Event.Present(req, token, verified, device, now))
    {
      if token !in tokens { return UnknownToken; }
      var t := tokens[token];
      if t.revoked {
        if t.graceUntil.Some? && t.graceUntil.value > now { return AlreadyRotated; }
        return RevokedToken;
      }
      if t.expiresAt < now { return ExpiredToken; }
      if !verified { return BadSignature; }
      var merged := device;
      if device.session.None? { merged := device.(session := t.session); }
      requests := requests[req := Request(token, merged, Checked)];
      answer := Proceed;
    }

    method Recheck(req: nat, now: int)
      requires req in requests && requests[req].phase == Checked && requests[req].token in tokens
      modifies `requests
      ensures View() == Step(old(View()), Event.Recheck(req, now))
    {
      var t := tokens[requests[req].token];
      var phase := Rechecked;
      if t.revoked || t.expiresAt < now { phase := Refused; }
      requests := requests[req := requests[req].(phase := phase)];
    }

    method Claim(req: nat, now: int) returns (count: nat)
      requires req in requests && requests[req].phase == Rechecked && requests[req].token in tokens
      modifies `requests, `tokens
      ensures View() == Step(old(View()), Event.Claim(req, now))
      ensures count == 1 <==> !old(tokens)[old(requests)[req].token].revoked
                              && now <= old(tokens)[old(requests)[req].token].expiresAt
    {
      var id := requests[req].token;
      count := 0;
      if !tokens[id].revoked && now <= tokens[id].expiresAt {
        tokens := tokens[id := tokens[id].(revoked := true, usedAt := Some(now), graceUntil := Some(now + GRACE_MS))];
        count := 1;
      }
      requests := requests[req := requests[req].(phase := if count == 1 then Claimed else Refused)];
    }

    method CreateSuccessor(req: nat, now: int) returns (id: nat)
      requires req in requests && requests[req].phase == Claimed && requests[req].token in tokens
      modifies this
      ensures View() == Step(old(View()), Create(req, now))
    {
      var t := tokens[requests[req].token];
      id := PersistToken(t.user, Some(t.family), requests[req].device, now);
      requests := requests[req := requests[req].(phase := Created(id))];
    }

    method LinkSuccessor(req: nat)
      requires req in requests && requests[req].phase.Created? && requests[req].token in tokens
      modifies `requests, `tokens
      ensures View() == Step(old(View()), Link(req))
    {
      var r := requests[req];
      tokens := tokens[r.token := tokens[r.token].(replacedBy := Some(r.phase.successor))];
      requests := requests[req := r.(phase := Linked(r.phase.successor))];
    }

    method LogOut(user: nat, token: nat)
      modifies `tokens
      ensures View() == Step(old(View()), Logout(user, token))
    {
      if token in tokens && tokens[token].user == user {
        tokens := tokens[token := tokens[token].(revoked := true)];
      }
    }
  }
}
