/** Role inheritance (src/middleware/auth.ts): walking parent links by id and by name, on any
    parent graph, and the permissions a user ends up with. */
module Roles {
  import opened Options

  datatype Role = Role(name: string, parent: Option<int>)

  // ---------------------------------------------------------------- reachability

  /** Where n parent links lead. */
  function After<K>(next: K -> Option<K>, start: Option<K>, n: nat): Option<K> {
    if n == 0 then start
    else
      var before := After(next, start, n - 1);
      if before.None? then None else next(before.value)
  }

  ghost predicate Reachable<K(!new)>(next: K -> Option<K>, start: Option<K>, k: K) {
    exists n: nat :: After(next, start, n) == Some(k)
  }

  /** The walk so far: everything in `seen` was reached, and leads on to `seen` or to `current`. */
  ghost predicate Walked<K(!new)>(next: K -> Option<K>, start: Option<K>, seen: set<K>, current: Option<K>) {
    && (forall k :: k in seen ==> Reachable(next, start, k))
    && (current.Some? ==> Reachable(next, start, current.value))
    && (forall k :: k in seen ==> next(k) == current || next(k) == None || next(k).value in seen)
    && (start == current || start == None || start.value in seen)
  }

  lemma WalkStart<K(!new)>(next: K -> Option<K>, start: Option<K>)
    ensures Walked(next, start, {}, start)
  {
    assert start.Some? ==> After(next, start, 0) == Some(start.value);
  }

  lemma WalkStep<K(!new)>(next: K -> Option<K>, start: Option<K>, seen: set<K>, current: K)
    requires Walked(next, start, seen, Some(current))
    ensures Walked(next, start, seen + {current}, next(current))
  {
    if next(current).Some? {
      var n: nat :| After(next, start, n) == Some(current);
      assert After(next, start, n + 1) == next(current);
    }
  }

  lemma {:induction false} WalkHoldsAll<K(!new)>(next: K -> Option<K>, start: Option<K>, seen: set<K>,
      current: Option<K>, n: nat)
    requires Walked(next, start, seen, current) && (current.Some? ==> current.value in seen)
    ensures After(next, start, n).Some? ==> After(next, start, n).value in seen
  {
    if n > 0 { WalkHoldsAll(next, start, seen, current, n - 1); }
  }

  /** A finished walk has collected exactly what is reachable. */
  lemma WalkIsExact<K(!new)>(next: K -> Option<K>, start: Option<K>, seen: set<K>, current: Option<K>)
    requires Walked(next, start, seen, current) && (current.Some? ==> current.value in seen)
    ensures forall k :: k in seen <==> Reachable(next, start, k)
  {
    forall k | Reachable(next, start, k) ensures k in seen {
      var n: nat :| After(next, start, n) == Some(k);
      WalkHoldsAll(next, start, seen, current, n);
    }
  }

  // ---------------------------------------------------------------- walking by id

  /** JavaScript truthiness of a nullable id. */
  function TruthyId(id: Option<int>): Option<int> {
    if id == Some(0) then None else id
  }

  function NextId(roles: map<int, Role>): int -> Option<int> {
    (id: int) => if id in roles then TruthyId(roles[id].parent) else None
  }

  /** collectRoleChain. */
  method CollectRoleChain(roles: map<int, Role>, roleId: Option<int>) returns (ids: set<int>)
    ensures forall id :: id in ids <==> Reachable(NextId(roles), TruthyId(roleId), id)
  {
    ids := {};
    var current := TruthyId(roleId);
    ghost var next, start := NextId(roles), TruthyId(roleId);
    WalkStart(next, start);
    while current.Some?
      invariant Walked(next, start, ids, current)
      decreases |roles.Keys - ids| + if current.Some? then 1 else 0
    {
      var id := current.value;
      if id in ids { break; }
      WalkStep(next, start, ids, id);
      Shrinks(roles.Keys, ids, id);
      ids := ids + {id};
      current := if id in roles then TruthyId(roles[id].parent) else None;
    }
    WalkIsExact(next, start, ids, current);
  }

  /** The roles not yet visited grow fewer. */
  lemma Shrinks<K>(all: set<K>, seen: set<K>, k: K)
    requires k !in seen
    ensures |all - (seen + {k})| <= |all - seen| && (k in all ==> |all - (seen + {k})| < |all - seen|)
  {
    if k in all {
      assert all - seen == (all - (seen + {k})) + {k};
    } else {
      assert all - seen == all - (seen + {k});
    }
  }

  // ---------------------------------------------------------------- walking by name

  predicate IsNamed(roles: map<int, Role>, id: int, name: string) {
    id in roles && roles[id].name == name
  }

  ghost predicate UniqueNames(roles: map<int, Role>) {
    forall i, j, name {:trigger IsNamed(roles, i, name), IsNamed(roles, j, name)} ::
      IsNamed(roles, i, name) && IsNamed(roles, j, name) ==> i == j
  }

  ghost function FindByName(roles: map<int, Role>, name: string): (r: Option<int>)
    ensures r.Some? ==> IsNamed(roles, r.value, name)
    ensures r.None? ==> forall id :: !IsNamed(roles, id, name)
  {
    if exists id :: IsNamed(roles, id, name) then
      var id :| IsNamed(roles, id, name);
      Some(id)
    else None
  }

  function TruthyName(name: string): Option<string> {
    if name == "" then None else Some(name)
  }

  /** The name of a role's parent row, if it has one. */
  function ParentName(roles: map<int, Role>, id: int): Option<string>
    requires id in roles
  {
    var parent := roles[id].parent;
    if parent.Some? && parent.value in roles then TruthyName(roles[parent.value].name) else None
  }

  ghost function NextName(roles: map<int, Role>): string -> Option<string> {
    (name: string) => var id := FindByName(roles, name); if id.Some? then ParentName(roles, id.value) else None
  }

  method Lookup(roles: map<int, Role>, name: string) returns (r: Option<int>)
    requires UniqueNames(roles)
    ensures r == FindByName(roles, name)
  {
    if id :| id in roles && roles[id].name == name {
      assert IsNamed(roles, id, name);
      return Some(id);
    }
    assert forall id :: !IsNamed(roles, id, name);
    r := None;
  }

  function Names(roles: map<int, Role>): set<string> {
    set id | id in roles :: roles[id].name
  }

  /** getRoleHierarchyByName. */
  method GetRoleHierarchyByName(roles: map<int, Role>, roleName: string) returns (names: set<string>)
    requires UniqueNames(roles)
    ensures forall name :: name in names <==> Reachable(NextName(roles), TruthyName(roleName), name)
  {
    names := {};
    var current := TruthyName(roleName);
    ghost var next, start := NextName(roles), TruthyName(roleName);
    WalkStart(next, start);
    while current.Some?
      invariant Walked(next, start, names, current)
      decreases |Names(roles) - names| + if current.Some? then 1 else 0
    {
      var name := current.value;
      if name in names { break; }
      WalkStep(next, start, names, name);
      Shrinks(Names(roles), names, name);
      names := names + {name};
      var row := Lookup(roles, name);
      current := if row.Some? then ParentName(roles, row.value) else None;
      assert row.Some? ==> name in Names(roles);
    }
    WalkIsExact(next, start, names, current);
  }

  // ---------------------------------------------------------------- the two walks agree

  /** What the role table guarantees: parents exist, ids count from one. */
  predicate Intact(roles: map<int, Role>) {
    && 0 !in roles
    && (forall id :: id in roles && roles[id].parent.Some? ==> roles[id].parent.value in roles)
  }

  /** No role on the chain has an empty name, at which the walk by name would stop. */
  ghost predicate NamedChain(roles: map<int, Role>, id: int) {
    forall k :: Reachable(NextId(roles), Some(id), k) ==> !IsNamed(roles, k, "")
  }

  lemma NamedStep(roles: map<int, Role>, id: int)
    requires Intact(roles) && UniqueNames(roles) && id in roles
    requires var up := NextId(roles)(id); up.Some? ==> !IsNamed(roles, up.value, "")
    ensures var up := NextId(roles)(id);
      && (up.Some? ==> up.value in roles)
      && NextName(roles)(roles[id].name) == if up.Some? then Some(roles[up.value].name) else None
  {
    assert IsNamed(roles, id, roles[id].name);
    assert FindByName(roles, roles[id].name) == Some(id);
    assert NextName(roles)(roles[id].name) == ParentName(roles, id);
    if roles[id].parent.Some? {
      var p := roles[id].parent.value;
      assert p in roles && NextId(roles)(id) == Some(p);
      assert roles[p].name != "";
    }
  }

  lemma {:induction false} WalksInStep(roles: map<int, Role>, id: int, n: nat)
    requires Intact(roles) && UniqueNames(roles) && id in roles && NamedChain(roles, id)
    ensures var up := After(NextId(roles), Some(id), n);
      && (up.Some? ==> up.value in roles)
      && After(NextName(roles), Some(roles[id].name), n) == if up.Some? then Some(roles[up.value].name) else None
  {
    if n > 0 {
      WalksInStep(roles, id, n - 1);
      var up := After(NextId(roles), Some(id), n - 1);
      if up.Some? {
        var above := NextId(roles)(up.value);
        assert above == After(NextId(roles), Some(id), n);
        assert above.Some? ==> Reachable(NextId(roles), Some(id), above.value);
        NamedStep(roles, up.value);
      }
    }
  }

  /** The walk by name finds `name` exactly when the walk by id finds a role of that name. */
  ghost predicate AgreeOn(roles: map<int, Role>, id: int, name: string)
    requires id in roles
  {
    Reachable(NextName(roles), TruthyName(roles[id].name), name)
    <==> exists k :: Reachable(NextId(roles), TruthyId(Some(id)), k) && IsNamed(roles, k, name)
  }

  lemma WalksAgree(roles: map<int, Role>, id: int, name: string)
    requires Intact(roles) && UniqueNames(roles) && id in roles && NamedChain(roles, id)
    ensures AgreeOn(roles, id, name)
  {
    var byName, byId := NextName(roles), NextId(roles);
    assert After(byId, Some(id), 0) == Some(id);
    assert !IsNamed(roles, id, "");
    if Reachable(byName, TruthyName(roles[id].name), name) {
      var n: nat :| After(byName, Some(roles[id].name), n) == Some(name);
      WalksInStep(roles, id, n);
      var k := After(byId, Some(id), n).value;
      assert Reachable(byId, Some(id), k) && IsNamed(roles, k, name);
    }
    if k :| Reachable(byId, TruthyId(Some(id)), k) && IsNamed(roles, k, name) {
      var n: nat :| After(byId, Some(id), n) == Some(k);
      WalksInStep(roles, id, n);
      assert After(byName, Some(roles[id].name), n) == Some(name);
    }
  }

  /** With unique names the two walks agree on every name exactly when no role on the chain has
      an empty name. */
  lemma WalksAgreeIff(roles: map<int, Role>, id: int)
    requires Intact(roles) && UniqueNames(roles) && id in roles
    ensures (forall name :: AgreeOn(roles, id, name)) <==> NamedChain(roles, id)
  {
    if NamedChain(roles, id) {
      forall name ensures AgreeOn(roles, id, name) { WalksAgree(roles, id, name); }
    } else {
      var k :| Reachable(NextId(roles), Some(id), k) && IsNamed(roles, k, "");
      assert TruthyId(Some(id)) == Some(id);
      assert forall n: nat :: After(NextName(roles), TruthyName(roles[id].name), n) != Some("");
      assert !AgreeOn(roles, id, "");
    }
  }

  /** A table on which they differ: the parent of role 1 has an empty name. */
  lemma EmptyNameSplitsTheWalks()
    ensures var roles := map[1 := Role("manager", Some(2)), 2 := Role("", None)];
      Intact(roles) && UniqueNames(roles) && exists name :: !AgreeOn(roles, 1, name)
  {
    var roles := map[1 := Role("manager", Some(2)), 2 := Role("", None)];
    assert roles[1].name != roles[2].name;
    assert After(NextId(roles), Some(1), 0) == Some(1);
    assert After(NextId(roles), Some(1), 1) == NextId(roles)(1) == Some(2);
    assert Reachable(NextId(roles), Some(1), 2) && IsNamed(roles, 2, "");
    WalksAgreeIff(roles, 1);
  }

  // ---------------------------------------------------------------- permissions

  datatype User = User(roleId: Option<int>, departmentRoles: seq<int>)

  /** A role a user holds directly. */
  predicate Seed(user: User, id: int) {
    (id != 0 && user.roleId == Some(id)) || id in user.departmentRoles
  }

  /** A role a user holds directly or by inheritance. */
  ghost predicate Holds(roles: map<int, Role>, user: User, id: int) {
    exists seed :: Seed(user, seed) && Reachable(NextId(roles), TruthyId(Some(seed)), id)
  }

  /** The set holds all the user's own and department roles, and with every role its parent; 0 names none. */
  ghost predicate ClosedFor(roles: map<int, Role>, user: User, ids: iset<int>) {
    && (forall id :: id != 0 && (user.roleId == Some(id) || id in user.departmentRoles) ==> id in ids)
    && (forall id :: id in ids && id in roles && roles[id].parent.Some? && roles[id].parent != Some(0) ==>
          roles[id].parent.value in ids)
  }

  /** The roles a user holds are the least such set: what inheritance means, said without walking. */
  lemma HeldRolesAreLeast(roles: map<int, Role>, user: User)
    ensures ClosedFor(roles, user, iset id | Holds(roles, user, id))
    ensures forall ids, id :: ClosedFor(roles, user, ids) && Holds(roles, user, id) ==> id in ids
  {
    forall id | id != 0 && Seed(user, id) ensures Holds(roles, user, id) {
      assert After(NextId(roles), TruthyId(Some(id)), 0) == Some(id);
    }
    forall id | Holds(roles, user, id) && id in roles && NextId(roles)(id).Some?
      ensures Holds(roles, user, NextId(roles)(id).value)
    {
      var seed :| Seed(user, seed) && Reachable(NextId(roles), TruthyId(Some(seed)), id);
      var n: nat :| After(NextId(roles), TruthyId(Some(seed)), n) == Some(id);
      assert After(NextId(roles), TruthyId(Some(seed)), n + 1) == NextId(roles)(id);
    }
    forall ids, id | ClosedFor(roles, user, ids) && Holds(roles, user, id) ensures id in ids {
      var seed :| Seed(user, seed) && Reachable(NextId(roles), TruthyId(Some(seed)), id);
      var n: nat :| After(NextId(roles), TruthyId(Some(seed)), n) == Some(id);
      StaysInside(roles, user, ids, seed, n);
    }
  }

  lemma {:induction false} StaysInside(roles: map<int, Role>, user: User, ids: iset<int>, seed: int, n: nat)
    requires ClosedFor(roles, user, ids) && Seed(user, seed)
    ensures var id := After(NextId(roles), TruthyId(Some(seed)), n); id.Some? ==> id.value in ids
  {
    if n == 0 {
      assert seed != 0 ==> seed in ids;
    } else {
      StaysInside(roles, user, ids, seed, n - 1);
      var before := After(NextId(roles), TruthyId(Some(seed)), n - 1);
      if before.Some? && before.value in roles {
        var id: int := before.value;
        assert id in ids;
        assert roles[id].parent.Some? && roles[id].parent != Some(0) ==> roles[id].parent.value in ids;
      }
    }
  }

  ghost predicate HoldsFrom(roles: map<int, Role>, seeds: set<int>, id: int) {
    exists seed :: seed in seeds && Reachable(NextId(roles), TruthyId(Some(seed)), id)
  }

  /** The union of the chains of some seed roles. */
  method CollectAll(roles: map<int, Role>, seeds: set<int>) returns (all: set<int>)
    ensures forall id :: id in all <==> HoldsFrom(roles, seeds, id)
  {
    all := {};
    var rest := seeds;
    while rest != {}
      invariant rest <= seeds
      invariant forall id :: id in all <==> HoldsFrom(roles, seeds - rest, id)
      decreases rest
    {
      assert (forall s :: s !in rest) ==> rest == {};
      var seed :| seed in rest;
      var chain := CollectRoleChain(roles, Some(seed));
      ghost var done := seeds - rest;
      all := all + chain;
      rest := rest - {seed};
      assert seeds - rest == done + {seed};
      assert forall id :: HoldsFrom(roles, done + {seed}, id)
                     <==> HoldsFrom(roles, done, id) || Reachable(NextId(roles), TruthyId(Some(seed)), id);
    }
    assert seeds - rest == seeds;
  }

  /** computeUserPermissions: exactly the permissions granted to a role the user holds. */
  method ComputeUserPermissions(roles: map<int, Role>, granted: set<(int, string)>, user: Option<User>)
      returns (permissions: set<string>)
    ensures forall p ::
      p in permissions <==> user.Some? && exists id :: Holds(roles, user.value, id) && (id, p) in granted
  {
    if user.None? { return {}; }
    var seeds := set id | id in user.value.departmentRoles;
    if user.value.roleId.Some? && user.value.roleId.value != 0 { seeds := seeds + {user.value.roleId.value}; }
    var all := CollectAll(roles, seeds);
    forall id ensures id in all <==> Holds(roles, user.value, id) {
      assert forall s :: s in seeds <==> Seed(user.value, s);
      assert HoldsFrom(roles, seeds, id) <==> Holds(roles, user.value, id);
    }
    permissions := set g | g in granted && g.0 in all :: g.1;
    forall p ensures p in permissions <==> exists id :: Holds(roles, user.value, id) && (id, p) in granted {
      if p in permissions {
        var g :| g in granted && g.0 in all && g.1 == p;
        assert Holds(roles, user.value, g.0) && (g.0, p) in granted;
      }
      if id :| Holds(roles, user.value, id) && (id, p) in granted {
        assert (id, p).0 in all;
      }
    }
  }
}
