/**
 Role-based access control with a flattened permission list per user.

 Each user carries the permissions of all of its roles in one list, edited in place whenever a
 role is assigned or removed and whenever a role gains or loses a permission. The invariant is
 that this list never drifts from the relation it flattens.
 */
module Rbac {
  datatype Permission = Permission(resource: string, action: string)

  datatype User = User(roles: seq<string>, permissions: seq<string>)

  /** Roles by their permission ids, users, and the registered permissions. */
  datatype Db = Db(roles: map<string, seq<string>>, users: map<string, User>, permissions: map<string, Permission>)

  datatype Op =
    | AddRole(id: string, perms: seq<string>)
    | UpdateRole(id: string, perms: seq<string>)
    | DeleteRole(id: string)
    | AddPermission(id: string, permission: Permission)
    | UpdatePermission(id: string, permission: Permission)
    | DeletePermission(id: string)
    | AddUser(id: string, user: User)
    | DeleteUser(id: string)
    | AssignRole(holder: string, role: string)
    | RemoveRole(holder: string, role: string)
    | AssignPermission(role: string, perm: string)
    | RemovePermission(role: string, perm: string)

  // ---------------------------------------------------------------- lists edited in place

  function RemoveFirst(s: seq<string>, x: string): seq<string> {
    if s == [] then [] else if s[0] == x then s[1..] else [s[0]] + RemoveFirst(s[1..], x)
  }

  /** Removing one occurrence for each element of xs. */
  function RemoveEach(s: seq<string>, xs: seq<string>): seq<string>
    decreases |xs|
  {
    if xs == [] then s else RemoveEach(RemoveFirst(s, xs[0]), xs[1..])
  }

  function Occurrences(s: seq<string>, x: string): nat {
    if s == [] then 0 else (if s[0] == x then 1 else 0) + Occurrences(s[1..], x)
  }

  function AppendTimes(s: seq<string>, x: string, n: nat): seq<string>
    decreases n
  {
    if n == 0 then s else AppendTimes(s + [x], x, n - 1)
  }

  function RemoveTimes(s: seq<string>, x: string, n: nat): seq<string>
    decreases n
  {
    if n == 0 then s else RemoveTimes(RemoveFirst(s, x), x, n - 1)
  }

  // ---------------------------------------------------------------- what the operations do

  function Granting(u: User, role: string, perm: string): User {
    u.(permissions := AppendTimes(u.permissions, perm, Occurrences(u.roles, role)))
  }

  function Revoking(u: User, role: string, perm: string): User {
    u.(permissions := RemoveTimes(u.permissions, perm, Occurrences(u.roles, role)))
  }

  /** Whether the operation returns nil; otherwise it changes nothing. */
  predicate Accepts(db: Db, op: Op) {
    match op
    case AddRole(id, _) => id !in db.roles
    case UpdateRole(id, _) => id in db.roles
    case DeleteRole(id) => id in db.roles
    case AddPermission(id, _) => id !in db.permissions
    case UpdatePermission(id, _) => id in db.permissions
    case DeletePermission(id) => id in db.permissions
    case AddUser(id, _) => id !in db.users
    case DeleteUser(id) => id in db.users
    case AssignRole(u, r) => u in db.users && r in db.roles && r !in db.users[u].roles
    case RemoveRole(u, r) => u in db.users && r in db.users[u].roles
    case AssignPermission(r, p) => r in db.roles && p in db.permissions && p !in db.roles[r]
    case RemovePermission(r, p) => r in db.roles && p in db.roles[r]
  }

  function Do(db: Db, op: Op): Db
    requires Accepts(db, op)
  {
    match op
    case AddRole(id, perms) => db.(roles := db.roles[id := perms])
    case UpdateRole(id, perms) => db.(roles := db.roles[id := perms])
    case DeleteRole(id) => db.(roles := db.roles - {id})
    case AddPermission(id, permission) => db.(permissions := db.permissions[id := permission])
    case UpdatePermission(id, permission) => db.(permissions := db.permissions[id := permission])
    case DeletePermission(id) => db.(permissions := db.permissions - {id})
    case AddUser(id, user) => db.(users := db.users[id := user])
    case DeleteUser(id) => db.(users := db.users - {id})
    case AssignRole(u, r) =>
      var user := db.users[u];
      db.(users := db.users[u := User(user.roles + [r], user.permissions + db.roles[r])])
    case RemoveRole(u, r) =>
      var user := db.users[u];
      var perms := if r in db.roles then RemoveEach(user.permissions, db.roles[r]) else user.permissions;
      db.(users := db.users[u := User(RemoveFirst(user.roles, r), perms)])
    case AssignPermission(r, p) =>
      db.(roles := db.roles[r := db.roles[r] + [p]],
          users := map u | u in db.users :: Granting(db.users[u], r, p))
    case RemovePermission(r, p) =>
      db.(roles := db.roles[r := RemoveFirst(db.roles[r], p)],
          users := map u | u in db.users :: Revoking(db.users[u], r, p))
  }

  function Step(db: Db, op: Op): Db { if Accepts(db, op) then Do(db, op) else db }

  // ---------------------------------------------------------------- the relation

  /** What the held roles grant together; a role that does not exist grants nothing. */
  function Granted(roles: map<string, seq<string>>, held: seq<string>): multiset<string> {
    if held == [] then multiset{}
    else (if held[0] in roles then multiset(roles[held[0]]) else multiset{}) + Granted(roles, held[1..])
  }

  ghost predicate Distinct(s: seq<string>) { forall i, j :: 0 <= i < j < |s| ==> s[i] != s[j] }

  /** The flattened list is the direct grants plus the grants of every held role. */
  ghost predicate BalancedUser(roles: map<string, seq<string>>, u: User, direct: multiset<string>) {
    multiset(u.permissions) == direct + Granted(roles, u.roles)
  }

  ghost predicate WellHeld(roles: map<string, seq<string>>, u: User) {
    Distinct(u.roles) && forall r :: r in u.roles ==> r in roles
  }

  /** The database with each user's direct grants. */
  datatype Ledger = Ledger(db: Db, direct: map<string, multiset<string>>)

  ghost predicate Balanced(l: Ledger) {
    && l.direct.Keys == l.db.users.Keys
    && forall u :: u in l.db.users ==> BalancedUser(l.db.roles, l.db.users[u], l.direct[u])
  }

  ghost predicate InStep(l: Ledger) {
    Balanced(l) && forall u :: u in l.db.users ==> WellHeld(l.db.roles, l.db.users[u])
  }

  /** What a user's list holds beyond the grants of its roles. */
  function Surplus(roles: map<string, seq<string>>, u: User): multiset<string> {
    multiset(u.permissions) - Granted(roles, u.roles)
  }

  function Next(l: Ledger, op: Op): Ledger {
    var direct :=
      if !Accepts(l.db, op) then l.direct
      else if op.AddUser? then l.direct[op.id := Surplus(l.db.roles, op.user)]
      else if op.DeleteUser? then l.direct - {op.id}
      else l.direct;
    Ledger(Step(l.db, op), direct)
  }

  ghost predicate Holds(db: Db, u: string, r: string) { u in db.users && r in db.users[u].roles }

  ghost predicate Held(db: Db, r: string) { exists u :: Holds(db, u, r) }

  /**
   What the caller has to see to before an operation. UpdateRole and DeleteRole change one side of the
   relation only, and AddUser takes the user's roles as they are; everything else is always fine.
   */
  ghost predicate Harmless(db: Db, op: Op) {
    Accepts(db, op) ==>
      match op
      case UpdateRole(r, perms) => Held(db, r) ==> multiset(perms) == multiset(db.roles[r])
      case DeleteRole(r) => !Held(db, r)
      case AddUser(_, user) => WellHeld(db.roles, user) && Granted(db.roles, user.roles) <= multiset(user.permissions)
      case _ => true
  }

  /** Operations that are harmless in every state: a new user starts without roles. */
  predicate TwoSided(op: Op) {
    !op.UpdateRole? && !op.DeleteRole? && (op.AddUser? ==> op.user.roles == [])
  }

  // ---------------------------------------------------------------- list lemmas

  lemma {:induction false} RemoveFirstCount(s: seq<string>, x: string)
    ensures multiset(RemoveFirst(s, x)) == multiset(s) - multiset{x}
  {
    if s != [] {
      assert s == [s[0]] + s[1..];
      if s[0] != x { RemoveFirstCount(s[1..], x); }
    }
  }

  lemma {:induction false} RemoveEachCount(s: seq<string>, xs: seq<string>)
    ensures multiset(RemoveEach(s, xs)) == multiset(s) - multiset(xs)
    decreases |xs|
  {
    if xs != [] {
      var x, rest := xs[0], xs[1..];
      RemoveFirstCount(s, x);
      RemoveEachCount(RemoveFirst(s, x), rest);
      MinusBoth(multiset(s), x, multiset(rest));
      assert multiset(xs) == multiset{x} + multiset(rest) by { assert xs == [x] + rest; }
    }
  }

  lemma {:induction false} OccurrencesCount(s: seq<string>, x: string)
    ensures Occurrences(s, x) == multiset(s)[x]
  {
    if s != [] {
      OccurrencesCount(s[1..], x);
      assert s == [s[0]] + s[1..];
    }
  }

  lemma {:induction false} AppendTimesCount(s: seq<string>, x: string, n: nat, y: string)
    ensures multiset(AppendTimes(s, x, n))[y] == multiset(s)[y] + (if y == x then n else 0)
    decreases n
  {
    if n > 0 { AppendTimesCount(s + [x], x, n - 1, y); }
  }

  lemma {:induction false} RemoveTimesCount(s: seq<string>, x: string, n: nat, y: string)
    ensures multiset(RemoveTimes(s, x, n))[y] ==
            if y != x then multiset(s)[y] else if multiset(s)[x] <= n then 0 else multiset(s)[x] - n
    decreases n
  {
    if n > 0 {
      RemoveFirstCount(s, x);
      RemoveTimesCount(RemoveFirst(s, x), x, n - 1, y);
    }
  }

  /** A user loses the role, and each of these permissions once. */
  ghost predicate DropsOnly(before: User, after: User, role: string, perms: seq<string>) {
    && multiset(after.roles) == multiset(before.roles) - multiset{role}
    && multiset(after.permissions) == multiset(before.permissions) - multiset(perms)
  }

  lemma RemovingMeans(u: User, role: string, perms: seq<string>)
    ensures DropsOnly(u, User(RemoveFirst(u.roles, role), RemoveEach(u.permissions, perms)), role, perms)
  {
    RemoveFirstCount(u.roles, role);
    RemoveEachCount(u.permissions, perms);
  }

  /** Every holder gains the permission once for each time it holds the role, and nobody anything else. */
  ghost predicate GainsOnly(before: User, after: User, role: string, perm: string) {
    && after.roles == before.roles
    && forall y :: multiset(after.permissions)[y] ==
                   multiset(before.permissions)[y] + (if y == perm then multiset(before.roles)[role] else 0)
  }

  /** Every holder loses it that many times, as far as it has it, and nobody anything else. */
  ghost predicate LosesOnly(before: User, after: User, role: string, perm: string) {
    && after.roles == before.roles
    && forall y :: multiset(after.permissions)[y] ==
                   if y != perm then multiset(before.permissions)[y]
                   else if multiset(before.permissions)[y] <= multiset(before.roles)[role] then 0
                   else multiset(before.permissions)[y] - multiset(before.roles)[role]
  }

  lemma GrantingMeans(u: User, role: string, perm: string)
    ensures GainsOnly(u, Granting(u, role, perm), role, perm)
  {
    OccurrencesCount(u.roles, role);
    forall y ensures multiset(Granting(u, role, perm).permissions)[y] ==
                     multiset(u.permissions)[y] + (if y == perm then multiset(u.roles)[role] else 0) {
      AppendTimesCount(u.permissions, perm, Occurrences(u.roles, role), y);
    }
  }

  lemma RevokingMeans(u: User, role: string, perm: string)
    ensures LosesOnly(u, Revoking(u, role, perm), role, perm)
  {
    OccurrencesCount(u.roles, role);
    forall y ensures multiset(Revoking(u, role, perm).permissions)[y] ==
                     if y != perm then multiset(u.permissions)[y]
                     else if multiset(u.permissions)[y] <= multiset(u.roles)[role] then 0
                     else multiset(u.permissions)[y] - multiset(u.roles)[role] {
      RemoveTimesCount(u.permissions, perm, Occurrences(u.roles, role), y);
    }
  }

  lemma MinusBoth(a: multiset<string>, x: string, b: multiset<string>)
    ensures a - multiset{x} - b == a - (multiset{x} + b)
  {}

  lemma {:induction false} OccursOnce(s: seq<string>, x: string)
    requires Distinct(s)
    ensures Occurrences(s, x) == if x in s then 1 else 0
  {
    if s != [] {
      assert Distinct(s[1..]);
      OccursOnce(s[1..], x);
    }
  }

  lemma {:induction false} RemoveFirstKeepsDistinct(s: seq<string>, x: string)
    requires Distinct(s)
    ensures Distinct(RemoveFirst(s, x))
    ensures forall y :: y in RemoveFirst(s, x) <==> y in s && y != x
  {
    if s != [] {
      assert Distinct(s[1..]) && s == [s[0]] + s[1..];
      assert s[0] !in s[1..];
      RemoveFirstKeepsDistinct(s[1..], x);
      if s[0] != x { DistinctCons(s[0], RemoveFirst(s[1..], x)); }
    }
  }

  lemma DistinctCons(x: string, s: seq<string>)
    requires Distinct(s) && x !in s
    ensures Distinct([x] + s)
  {}

  // ---------------------------------------------------------------- grant lemmas

  lemma {:induction false} GrantedSnoc(roles: map<string, seq<string>>, held: seq<string>, r: string)
    requires r in roles
    ensures Granted(roles, held + [r]) == Granted(roles, held) + multiset(roles[r])
  {
    if held == [] {
      assert held + [r] == [r] && [r][1..] == [];
    } else {
      assert (held + [r])[1..] == held[1..] + [r];
      GrantedSnoc(roles, held[1..], r);
    }
  }

  lemma {:induction false} GrantedWithout(roles: map<string, seq<string>>, held: seq<string>, r: string)
    requires r in held && r in roles
    ensures Granted(roles, held) == Granted(roles, RemoveFirst(held, r)) + multiset(roles[r])
  {
    if held[0] != r {
      GrantedWithout(roles, held[1..], r);
      assert RemoveFirst(held, r)[1..] == RemoveFirst(held[1..], r);
    }
  }

  lemma {:induction false} GrantedElsewhere(roles: map<string, seq<string>>, roles': map<string, seq<string>>,
                                            held: seq<string>)
    requires forall r :: r in held ==> (r in roles <==> r in roles') && (r in roles ==> roles'[r] == roles[r])
    ensures Granted(roles', held) == Granted(roles, held)
  {
    if held != [] { GrantedElsewhere(roles, roles', held[1..]); }
  }

  /** Replacing one held role's list replaces its share of the grants. */
  lemma GrantedReplaced(roles: map<string, seq<string>>, roles': map<string, seq<string>>, held: seq<string>, r: string)
    requires Distinct(held) && r in held && r in roles && r in roles'
    requires forall q :: q in held && q != r ==> (q in roles <==> q in roles') && (q in roles ==> roles'[q] == roles[q])
    ensures Granted(roles', held) + multiset(roles[r]) == Granted(roles, held) + multiset(roles'[r])
  {
    GrantedWithout(roles, held, r);
    GrantedWithout(roles', held, r);
    RemoveFirstKeepsDistinct(held, r);
    GrantedElsewhere(roles, roles', RemoveFirst(held, r));
  }

  lemma {:induction false} GrantedMembers(roles: map<string, seq<string>>, held: seq<string>, p: string)
    ensures p in Granted(roles, held) <==> exists r :: r in held && r in roles && p in roles[r]
  {
    if held != [] { GrantedMembers(roles, held[1..], p); }
  }

  // ---------------------------------------------------------------- every operation keeps the balance

  /** Replacing one user by another in balance. */
  lemma UserReplaced(l: Ledger, u: string, user: User)
    requires InStep(l) && u in l.db.users
    requires BalancedUser(l.db.roles, user, l.direct[u]) && WellHeld(l.db.roles, user)
    ensures InStep(Ledger(l.db.(users := l.db.users[u := user]), l.direct))
  {}

  lemma AssignedUser(roles: map<string, seq<string>>, u: User, direct: multiset<string>, r: string)
    requires BalancedUser(roles, u, direct) && WellHeld(roles, u) && r in roles && r !in u.roles
    ensures BalancedUser(roles, User(u.roles + [r], u.permissions + roles[r]), direct)
    ensures WellHeld(roles, User(u.roles + [r], u.permissions + roles[r]))
  {
    GrantedSnoc(roles, u.roles, r);
  }

  lemma RemovedUser(roles: map<string, seq<string>>, u: User, direct: multiset<string>, r: string)
    requires BalancedUser(roles, u, direct) && WellHeld(roles, u) && r in u.roles
    ensures r in roles
    ensures BalancedUser(roles, User(RemoveFirst(u.roles, r), RemoveEach(u.permissions, roles[r])), direct)
    ensures WellHeld(roles, User(RemoveFirst(u.roles, r), RemoveEach(u.permissions, roles[r])))
  {
    GrantedWithout(roles, u.roles, r);
    RemoveEachCount(u.permissions, roles[r]);
    RemoveFirstKeepsDistinct(u.roles, r);
    Balances(direct, Granted(roles, RemoveFirst(u.roles, r)), multiset(roles[r]));
  }

  lemma AssignRoleKeeps(l: Ledger, u: string, r: string)
    requires InStep(l) && Accepts(l.db, AssignRole(u, r))
    ensures InStep(Next(l, AssignRole(u, r)))
  {
    var user := l.db.users[u];
    assert BalancedUser(l.db.roles, user, l.direct[u]) && WellHeld(l.db.roles, user);
    AssignedUser(l.db.roles, user, l.direct[u], r);
    UserReplaced(l, u, User(user.roles + [r], user.permissions + l.db.roles[r]));
  }

  lemma RemoveRoleKeeps(l: Ledger, u: string, r: string)
    requires InStep(l) && Accepts(l.db, RemoveRole(u, r))
    ensures InStep(Next(l, RemoveRole(u, r)))
  {
    var user := l.db.users[u];
    assert BalancedUser(l.db.roles, user, l.direct[u]) && WellHeld(l.db.roles, user);
    RemovedUser(l.db.roles, user, l.direct[u], r);
    UserReplaced(l, u, User(RemoveFirst(user.roles, r), RemoveEach(user.permissions, l.db.roles[r])));
  }

  lemma Balances(a: multiset<string>, b: multiset<string>, c: multiset<string>)
    ensures a + (b + c) - c == a + b
  {}

  lemma GrantingUser(roles: map<string, seq<string>>, u: User, direct: multiset<string>, r: string, p: string)
    requires BalancedUser(roles, u, direct) && WellHeld(roles, u) && r in roles
    ensures BalancedUser(roles[r := roles[r] + [p]], Granting(u, r, p), direct)
  {
    var roles' := roles[r := roles[r] + [p]];
    OccursOnce(u.roles, r);
    if r in u.roles {
      GrantedReplaced(roles, roles', u.roles, r);
      assert AppendTimes(u.permissions, p, 1) == u.permissions + [p];
      Shift(Granted(roles', u.roles), Granted(roles, u.roles), multiset(roles[r]), p);
    } else {
      GrantedElsewhere(roles, roles', u.roles);
    }
  }

  lemma Shift(a: multiset<string>, b: multiset<string>, c: multiset<string>, p: string)
    requires a + c == b + (c + multiset{p})
    ensures a == b + multiset{p}
  {
    assert a == a + c - c && b + multiset{p} == b + (c + multiset{p}) - c;
  }

  lemma RevokingUser(roles: map<string, seq<string>>, u: User, direct: multiset<string>, r: string, p: string)
    requires BalancedUser(roles, u, direct) && WellHeld(roles, u) && r in roles && p in roles[r]
    ensures BalancedUser(roles[r := RemoveFirst(roles[r], p)], Revoking(u, r, p), direct)
  {
    var roles' := roles[r := RemoveFirst(roles[r], p)];
    OccursOnce(u.roles, r);
    if r in u.roles {
      GrantedReplaced(roles, roles', u.roles, r);
      RemoveFirstCount(roles[r], p);
      assert p in multiset(roles[r]);
      assert multiset(roles[r]) == multiset(roles'[r]) + multiset{p};
      Shift(Granted(roles, u.roles), Granted(roles', u.roles), multiset(roles'[r]), p);
      RemoveFirstCount(u.permissions, p);
      assert RemoveTimes(u.permissions, p, 1) == RemoveFirst(u.permissions, p);
      Balances(direct, Granted(roles', u.roles), multiset{p});
    } else {
      GrantedElsewhere(roles, roles', u.roles);
    }
  }

  lemma AssignPermissionKeeps(l: Ledger, r: string, p: string)
    requires InStep(l) && Accepts(l.db, AssignPermission(r, p))
    ensures InStep(Next(l, AssignPermission(r, p)))
  {
    forall u | u in l.db.users
      ensures BalancedUser(l.db.roles[r := l.db.roles[r] + [p]], Granting(l.db.users[u], r, p), l.direct[u])
    {
      assert WellHeld(l.db.roles, l.db.users[u]);
      GrantingUser(l.db.roles, l.db.users[u], l.direct[u], r, p);
    }
  }

  lemma RemovePermissionKeeps(l: Ledger, r: string, p: string)
    requires InStep(l) && Accepts(l.db, RemovePermission(r, p))
    ensures InStep(Next(l, RemovePermission(r, p)))
  {
    forall u | u in l.db.users
      ensures BalancedUser(l.db.roles[r := RemoveFirst(l.db.roles[r], p)], Revoking(l.db.users[u], r, p), l.direct[u])
    {
      assert WellHeld(l.db.roles, l.db.users[u]);
      RevokingUser(l.db.roles, l.db.users[u], l.direct[u], r, p);
    }
  }

  lemma AddRoleKeeps(l: Ledger, id: string, perms: seq<string>)
    requires InStep(l) && Accepts(l.db, AddRole(id, perms))
    ensures InStep(Next(l, AddRole(id, perms)))
  {
    forall u | u in l.db.users ensures BalancedUser(l.db.roles[id := perms], l.db.users[u], l.direct[u]) {
      assert WellHeld(l.db.roles, l.db.users[u]);
      GrantedElsewhere(l.db.roles, l.db.roles[id := perms], l.db.users[u].roles);
    }
    forall u | u in l.db.users ensures WellHeld(l.db.roles[id := perms], l.db.users[u]) {
      assert WellHeld(l.db.roles, l.db.users[u]);
    }
  }

  /** UpdateRole keeps the balance exactly when no holder could notice. */
  lemma UpdateRoleKeepsIff(l: Ledger, r: string, perms: seq<string>)
    requires InStep(l) && r in l.db.roles
    ensures InStep(Next(l, UpdateRole(r, perms))) <==> (Held(l.db, r) ==> multiset(perms) == multiset(l.db.roles[r]))
  {
    var roles' := l.db.roles[r := perms];
    var l' := Ledger(l.db.(roles := roles'), l.direct);
    assert Next(l, UpdateRole(r, perms)) == l';
    forall u | u in l.db.users
      ensures WellHeld(roles', l.db.users[u])
      ensures BalancedUser(roles', l.db.users[u], l.direct[u]) <==>
                Holds(l.db, u, r) ==> multiset(perms) == multiset(l.db.roles[r])
    {
      InStepUser(l, u);
      ReplacedShare(l.db.roles, roles', l.db.users[u], l.direct[u], r);
    }
    if Held(l.db, r) {
      var u :| Holds(l.db, u, r);
      if InStep(l') { InStepUser(l', u); }
    }
  }

  lemma ReplacedShare(roles: map<string, seq<string>>, roles': map<string, seq<string>>, u: User,
                      direct: multiset<string>, r: string)
    requires BalancedUser(roles, u, direct) && Distinct(u.roles) && r in roles && r in roles'
    requires forall q :: q in u.roles && q != r ==>
               (q in roles <==> q in roles') && (q in roles ==> roles'[q] == roles[q])
    ensures BalancedUser(roles', u, direct) <==> (r in u.roles ==> multiset(roles'[r]) == multiset(roles[r]))
  {
    if r in u.roles {
      GrantedReplaced(roles, roles', u.roles, r);
      SameShare(direct, Granted(roles, u.roles), Granted(roles', u.roles), multiset(roles[r]), multiset(roles'[r]));
    } else {
      GrantedElsewhere(roles, roles', u.roles);
    }
  }

  lemma SameShare(d: multiset<string>, a: multiset<string>, b: multiset<string>, x: multiset<string>,
                  y: multiset<string>)
    requires b + x == a + y
    ensures d + a == d + b <==> x == y
  {
    if d + a == d + b {
      assert a == d + a - d && b == d + b - d;
      assert x == b + x - b && y == a + y - a;
    }
    if x == y {
      assert a == a + y - y && b == b + x - x;
    }
  }

  /**
   DeleteRole keeps the lists in step exactly when nobody holds the role. A holder that got nothing from
   it stays in balance for the moment, but the role can come back under the same id.
   */
  lemma DeleteRoleKeepsIff(l: Ledger, r: string)
    requires InStep(l) && r in l.db.roles
    ensures InStep(Next(l, DeleteRole(r))) <==> !Held(l.db, r)
    ensures Balanced(Next(l, DeleteRole(r))) <==> (Held(l.db, r) ==> l.db.roles[r] == [])
  {
    var roles' := l.db.roles - {r};
    var hollow := l.db.roles[r := []];
    forall u | u in l.db.users
      ensures BalancedUser(roles', l.db.users[u], l.direct[u]) <==> Holds(l.db, u, r) ==> l.db.roles[r] == []
      ensures WellHeld(roles', l.db.users[u]) <==> !Holds(l.db, u, r)
    {
      assert BalancedUser(l.db.roles, l.db.users[u], l.direct[u]) && WellHeld(l.db.roles, l.db.users[u]);
      MissingGrantsNothing(l.db.roles, r, l.db.users[u].roles);
      ReplacedShare(l.db.roles, hollow, l.db.users[u], l.direct[u], r);
      EmptyMultiset(l.db.roles[r]);
    }
  }

  /** A role that is deleted and added again was updated behind its holders' backs. */
  lemma DeleteThenAddKeepsIff(l: Ledger, r: string, perms: seq<string>)
    requires InStep(l) && r in l.db.roles
    ensures InStep(Next(Next(l, DeleteRole(r)), AddRole(r, perms))) <==>
              (Held(l.db, r) ==> multiset(perms) == multiset(l.db.roles[r]))
  {
    assert (l.db.roles - {r})[r := perms] == l.db.roles[r := perms];
    assert Next(Next(l, DeleteRole(r)), AddRole(r, perms)) == Next(l, UpdateRole(r, perms));
    UpdateRoleKeepsIff(l, r, perms);
  }

  lemma EmptyMultiset(s: seq<string>)
    ensures multiset(s) == multiset{} <==> s == []
  {
    if s != [] { assert s[0] in multiset(s); }
  }

  lemma {:induction false} MissingGrantsNothing(roles: map<string, seq<string>>, r: string, held: seq<string>)
    ensures Granted(roles - {r}, held) == Granted(roles[r := []], held)
  {
    if held != [] { MissingGrantsNothing(roles, r, held[1..]); }
  }

  /** Everybody else is in step as before. */
  lemma UserAdded(l: Ledger, id: string, user: User, direct: multiset<string>)
    requires InStep(l) && id !in l.db.users
    requires BalancedUser(l.db.roles, user, direct) && WellHeld(l.db.roles, user)
    ensures InStep(Ledger(l.db.(users := l.db.users[id := user]), l.direct[id := direct]))
  {
    var users, grants := l.db.users[id := user], l.direct[id := direct];
    forall u | u in users ensures BalancedUser(l.db.roles, users[u], grants[u]) {
      if u != id { assert BalancedUser(l.db.roles, l.db.users[u], l.direct[u]); }
    }
    forall u | u in users ensures WellHeld(l.db.roles, users[u]) {
      if u != id { assert WellHeld(l.db.roles, l.db.users[u]); }
    }
  }

  lemma InStepUser(l: Ledger, u: string)
    requires InStep(l) && u in l.db.users
    ensures BalancedUser(l.db.roles, l.db.users[u], l.direct[u]) && WellHeld(l.db.roles, l.db.users[u])
  {}

  ghost predicate InStepWith(l: Ledger, id: string, user: User, direct: multiset<string>) {
    InStep(Ledger(l.db.(users := l.db.users[id := user]), l.direct[id := direct]))
  }

  /** Only the surplus can be what was granted directly. */
  lemma SurplusIsDirect(l: Ledger, id: string, user: User, direct: multiset<string>)
    requires InStep(l) && id !in l.db.users
    ensures InStepWith(l, id, user, direct) <==>
              && WellHeld(l.db.roles, user) && Granted(l.db.roles, user.roles) <= multiset(user.permissions)
              && direct == Surplus(l.db.roles, user)
  {
    var l' := Ledger(l.db.(users := l.db.users[id := user]), l.direct[id := direct]);
    SurplusIff(multiset(user.permissions), Granted(l.db.roles, user.roles), direct);
    if BalancedUser(l.db.roles, user, direct) && WellHeld(l.db.roles, user) { UserAdded(l, id, user, direct); }
    if InStep(l') { InStepUser(l', id); }
  }

  lemma SurplusIff(perms: multiset<string>, granted: multiset<string>, direct: multiset<string>)
    ensures perms == direct + granted <==> granted <= perms && direct == perms - granted
  {
    if granted <= perms && direct == perms - granted { assert perms == direct + granted; }
    if perms == direct + granted { assert granted <= perms && direct == perms - granted; }
  }

  /**
   AddUser keeps the lists in step exactly when the user's roles exist, are distinct, and their grants
   are already in its list; and otherwise no account of direct grants would make it so.
   */
  lemma AddUserKeepsIff(l: Ledger, id: string, user: User)
    requires InStep(l) && id !in l.db.users
    ensures InStep(Next(l, AddUser(id, user))) <==>
              WellHeld(l.db.roles, user) && Granted(l.db.roles, user.roles) <= multiset(user.permissions)
    ensures (exists direct :: InStepWith(l, id, user, direct)) <==>
              WellHeld(l.db.roles, user) && Granted(l.db.roles, user.roles) <= multiset(user.permissions)
  {
    SurplusIsDirect(l, id, user, Surplus(l.db.roles, user));
    assert InStepWith(l, id, user, Surplus(l.db.roles, user)) <==> InStep(Next(l, AddUser(id, user)));
    forall direct ensures InStepWith(l, id, user, direct) ==> InStepWith(l, id, user, Surplus(l.db.roles, user)) {
      SurplusIsDirect(l, id, user, direct);
    }
  }

  lemma OtherStepKeeps(l: Ledger, op: Op)
    requires InStep(l) && Accepts(l.db, op) && !op.UpdateRole? && !op.DeleteRole? && !op.AddUser?
    ensures InStep(Next(l, op))
  {
    match op
    case AddRole(id, perms) => AddRoleKeeps(l, id, perms);
    case AssignRole(u, r) => AssignRoleKeeps(l, u, r);
    case RemoveRole(u, r) => RemoveRoleKeeps(l, u, r);
    case AssignPermission(r, p) => AssignPermissionKeeps(l, r, p);
    case RemovePermission(r, p) => RemovePermissionKeeps(l, r, p);
    case _ =>
  }

  /** An operation, accepted or refused, keeps lists and relation in step exactly when it is harmless. */
  lemma StepKeepsIff(l: Ledger, op: Op)
    requires InStep(l)
    ensures InStep(Next(l, op)) <==> Harmless(l.db, op)
  {
    if Accepts(l.db, op) {
      match op
      case UpdateRole(r, perms) => UpdateRoleKeepsIff(l, r, perms);
      case DeleteRole(r) => DeleteRoleKeepsIff(l, r);
      case AddUser(id, user) => AddUserKeepsIff(l, id, user);
      case _ => OtherStepKeeps(l, op);
    }
  }

  // ---------------------------------------------------------------- every run

  function Run(l: Ledger, ops: seq<Op>): Ledger
    decreases |ops|
  {
    if ops == [] then l else Run(Next(l, ops[0]), ops[1..])
  }

  const EMPTY := Ledger(Db(map[], map[], map[]), map[])

  /** Each operation is harmless in the state that it finds. */
  ghost predicate HarmlessRun(l: Ledger, ops: seq<Op>)
    decreases |ops|
  {
    ops == [] || (Harmless(l.db, ops[0]) && HarmlessRun(Next(l, ops[0]), ops[1..]))
  }

  ghost predicate InStepThroughout(l: Ledger, ops: seq<Op>)
    decreases |ops|
  {
    InStep(l) && (ops == [] || InStepThroughout(Next(l, ops[0]), ops[1..]))
  }

  /** A run stays in step from beginning to end exactly when each of its operations is harmless. */
  lemma {:induction false} RunKeepsIff(l: Ledger, ops: seq<Op>)
    requires InStep(l)
    ensures InStepThroughout(l, ops) <==> HarmlessRun(l, ops)
    ensures HarmlessRun(l, ops) ==> InStep(Run(l, ops))
    decreases |ops|
  {
    if ops != [] {
      StepKeepsIff(l, ops[0]);
      if Harmless(l.db, ops[0]) { RunKeepsIff(Next(l, ops[0]), ops[1..]); }
    }
  }

  /** Two-sided operations need no looking. */
  lemma {:induction false} TwoSidedIsHarmless(l: Ledger, ops: seq<Op>)
    requires forall i :: 0 <= i < |ops| ==> TwoSided(ops[i])
    ensures HarmlessRun(l, ops)
    decreases |ops|
  {
    if ops != [] {
      assert TwoSided(ops[0]);
      TwoSidedIsHarmless(Next(l, ops[0]), ops[1..]);
    }
  }

  /** After any harmless run the flattened lists equal the relation. */
  lemma FlattenedEqualsRelation(ops: seq<Op>, u: string)
    requires HarmlessRun(EMPTY, ops) && u in Run(EMPTY, ops).db.users
    ensures var l := Run(EMPTY, ops);
            && u in l.direct
            && multiset(l.db.users[u].permissions) == l.direct[u] + Granted(l.db.roles, l.db.users[u].roles)
  {
    RunKeepsIff(EMPTY, ops);
    var l := Run(EMPTY, ops);
    assert BalancedUser(l.db.roles, l.db.users[u], l.direct[u]);
  }

  // ---------------------------------------------------------------- what a user may do

  predicate Matches(db: Db, p: string, resource: string, action: string) {
    p in db.permissions && db.permissions[p] == Permission(resource, action)
  }

  /** The answer of the flattened list alone. */
  ghost predicate InList(db: Db, u: string, resource: string, action: string) {
    u in db.users && exists p :: p in db.users[u].permissions && Matches(db, p, resource, action)
  }

  /** The answer of the roles alone. */
  ghost predicate InRoles(db: Db, u: string, resource: string, action: string) {
    && u in db.users
    && exists r, p :: r in db.users[u].roles && r in db.roles && p in db.roles[r] && Matches(db, p, resource, action)
  }

  /** Some registered permission has that resource and that action, and is listed or comes with a held role. */
  ghost predicate MayUse(db: Db, u: string, resource: string, action: string) {
    exists p :: && p in db.permissions && db.permissions[p].resource == resource && db.permissions[p].action == action
                && Has(db, u, p)
  }

  ghost predicate Has(db: Db, u: string, p: string) {
    u in db.users &&
    (p in db.users[u].permissions || exists r :: r in db.users[u].roles && r in db.roles && p in db.roles[r])
  }

  lemma MayUseIff(db: Db, u: string, resource: string, action: string)
    ensures MayUse(db, u, resource, action) <==> InList(db, u, resource, action) || InRoles(db, u, resource, action)
  {
    if InList(db, u, resource, action) {
      var p :| p in db.users[u].permissions && Matches(db, p, resource, action);
      assert Has(db, u, p);
    }
    if InRoles(db, u, resource, action) {
      var r, p :| r in db.users[u].roles && r in db.roles && p in db.roles[r] && Matches(db, p, resource, action);
      assert Has(db, u, p);
    }
    if MayUse(db, u, resource, action) {
      var p :| p in db.permissions && db.permissions[p].resource == resource && db.permissions[p].action == action
               && Has(db, u, p);
      assert Matches(db, p, resource, action);
    }
  }

  /** A permission given to a role works for its holders at once, for its own resource and action. */
  lemma GrantTakesEffect(l: Ledger, u: string, r: string, p: string)
    requires InStep(l) && Accepts(l.db, AssignPermission(r, p)) && Holds(l.db, u, r)
    ensures var db := Next(l, AssignPermission(r, p)).db;
            p in db.permissions && MayUse(db, u, db.permissions[p].resource, db.permissions[p].action)
            && p in db.users[u].permissions
  {
    AssignPermissionKeeps(l, r, p);
    var l' := Next(l, AssignPermission(r, p));
    assert l'.db.users[u].roles == l.db.users[u].roles && p in l'.db.roles[r];
    ListedIffGranted(l', u, p);
    assert Has(l'.db, u, p);
  }

  /** Assigning a role makes each of its registered permissions usable, and takes nothing away. */
  lemma AssignTakesEffect(l: Ledger, u: string, r: string, p: string)
    requires InStep(l) && Accepts(l.db, AssignRole(u, r))
    ensures var db := Next(l, AssignRole(u, r)).db;
            && Holds(db, u, r)
            && (p in db.users[u].permissions <==> p in l.db.users[u].permissions || p in l.db.roles[r])
            && (p in l.db.roles[r] && p in db.permissions ==>
                  MayUse(db, u, db.permissions[p].resource, db.permissions[p].action))
  {
    var db := Next(l, AssignRole(u, r)).db;
    assert db.users[u] == User(l.db.users[u].roles + [r], l.db.users[u].permissions + l.db.roles[r]);
    if p in l.db.roles[r] { assert Has(db, u, p); }
  }

  /** The relation: granted directly, or by a held role. */
  ghost predicate GrantedTo(l: Ledger, u: string, p: string)
    requires u in l.db.users && u in l.direct
  {
    p in l.direct[u] || exists r :: r in l.db.users[u].roles && r in l.db.roles && p in l.db.roles[r]
  }

  lemma ListedIffGranted(l: Ledger, u: string, p: string)
    requires InStep(l) && u in l.db.users
    ensures p in l.db.users[u].permissions <==> GrantedTo(l, u, p)
  {
    assert BalancedUser(l.db.roles, l.db.users[u], l.direct[u]);
    assert p in l.db.users[u].permissions <==> p in multiset(l.db.users[u].permissions);
    GrantedMembers(l.db.roles, l.db.users[u].roles, p);
  }

  /** In every balanced state the second half of HasPermission adds nothing. */
  lemma RolesAddNothing(l: Ledger, u: string, resource: string, action: string)
    requires InStep(l) && InRoles(l.db, u, resource, action)
    ensures InList(l.db, u, resource, action)
  {
    var r, p :| r in l.db.users[u].roles && r in l.db.roles && p in l.db.roles[r] && Matches(l.db, p, resource, action);
    ListedIffGranted(l, u, p);
  }

  /** Revoking a role keeps exactly what is granted directly or by another held role. */
  lemma RevokeKeepsExactlyTheRest(l: Ledger, u: string, r: string, p: string)
    requires InStep(l) && Accepts(l.db, RemoveRole(u, r))
    ensures p in Next(l, RemoveRole(u, r)).db.users[u].permissions <==>
              || p in l.direct[u]
              || exists q :: q in l.db.users[u].roles && q != r && q in l.db.roles && p in l.db.roles[q]
  {
    RemoveRoleKeeps(l, u, r);
    var l' := Next(l, RemoveRole(u, r));
    ListedIffGranted(l', u, p);
    assert WellHeld(l.db.roles, l.db.users[u]);
    RemoveFirstKeepsDistinct(l.db.users[u].roles, r);
    assert forall q :: q in l'.db.users[u].roles <==> q in l.db.users[u].roles && q != r;
  }

  /** Assigning a role and removing it again restores what the user may do. */
  lemma AssignThenRemove(l: Ledger, u: string, r: string)
    requires InStep(l) && Accepts(l.db, AssignRole(u, r))
    ensures var l' := Next(Next(l, AssignRole(u, r)), RemoveRole(u, r));
            && l'.db.users[u].roles == l.db.users[u].roles
            && multiset(l'.db.users[u].permissions) == multiset(l.db.users[u].permissions)
  {
    var user := l.db.users[u];
    var l1 := Next(l, AssignRole(u, r));
    assert l1.db.users[u] == User(user.roles + [r], user.permissions + l.db.roles[r]) && l1.db.roles == l.db.roles;
    var l2 := Next(l1, RemoveRole(u, r));
    AssignedThenRemoved(user, l.db.roles[r], r);
    assert l2.db.users[u] ==
           User(RemoveFirst(user.roles + [r], r), RemoveEach(user.permissions + l.db.roles[r], l.db.roles[r]));
  }

  lemma AssignedThenRemoved(user: User, perms: seq<string>, r: string)
    requires r !in user.roles
    ensures RemoveFirst(user.roles + [r], r) == user.roles
    ensures multiset(RemoveEach(user.permissions + perms, perms)) == multiset(user.permissions)
  {
    RemoveLast(user.roles, r);
    RemoveEachCount(user.permissions + perms, perms);
    assert multiset(user.permissions + perms) == multiset(user.permissions) + multiset(perms);
  }

  lemma {:induction false} RemoveLast(s: seq<string>, x: string)
    requires x !in s
    ensures RemoveFirst(s + [x], x) == s
  {
    if s == [] {
      assert s + [x] == [x];
    } else {
      assert (s + [x])[1..] == s[1..] + [x];
      RemoveLast(s[1..], x);
    }
  }

  // ---------------------------------------------------------------- the object

  lemma {:induction false} RemoveFirstAt(s: seq<string>, x: string, j: nat)
    requires j < |s| && s[j] == x && x !in s[..j]
    ensures RemoveFirst(s, x) == s[..j] + s[j + 1..]
  {
    if j > 0 {
      assert s[0] in s[..j];
      assert s[1..][..j - 1] == s[..j][1..];
      RemoveFirstAt(s[1..], x, j - 1);
    }
  }

  lemma {:induction false} RemoveFirstMissing(s: seq<string>, x: string)
    requires x !in s
    ensures RemoveFirst(s, x) == s
  {
    if s != [] { RemoveFirstMissing(s[1..], x); }
  }

  /** The scan that cuts the first occurrence out of a slice. */
  method CutFirst(s: seq<string>, x: string) returns (r: seq<string>)
    ensures r == RemoveFirst(s, x)
  {
    for j := 0 to |s|
      invariant x !in s[..j]
    {
      if s[j] == x {
        RemoveFirstAt(s, x, j);
        return s[..j] + s[j + 1..];
      }
    }
    RemoveFirstMissing(s, x);
    return s;
  }

  method CutEach(s: seq<string>, xs: seq<string>) returns (r: seq<string>)
    ensures r == RemoveEach(s, xs)
  {
    r := s;
    for i := 0 to |xs|
      invariant RemoveEach(s, xs) == RemoveEach(r, xs[i..])
    {
      r := CutFirst(r, xs[i]);
      assert xs[i..][1..] == xs[i + 1..];
    }
  }

  /** What a role grants; one that does not exist grants nothing. */
  function Grants(roles: map<string, seq<string>>, r: string): seq<string> { if r in roles then roles[r] else [] }

  lemma RemoveRoleCuts(db: Db, u: string, r: string)
    requires Accepts(db, RemoveRole(u, r))
    ensures var user := db.users[u];
            var cut := User(RemoveFirst(user.roles, r), RemoveEach(user.permissions, Grants(db.roles, r)));
            Step(db, RemoveRole(u, r)) == Db(db.roles, db.users[u := cut], db.permissions)
  {}

  /** The loops that take a role and its permissions off a user. */
  method CutRole(u: User, role: string, perms: seq<string>) returns (v: User)
    ensures v == User(RemoveFirst(u.roles, role), RemoveEach(u.permissions, perms))
    ensures DropsOnly(u, v, role, perms)
  {
    var held := CutFirst(u.roles, role);
    var rest := CutEach(u.permissions, perms);
    RemovingMeans(u, role, perms);
    v := User(held, rest);
  }

  /** The inner loop over one user's roles when a role gains or loses a permission. */
  method EditUser(u: User, role: string, perm: string, grant: bool) returns (v: User)
    ensures v == if grant then Granting(u, role, perm) else Revoking(u, role, perm)
  {
    var perms := u.permissions;
    for i := 0 to |u.roles|
      invariant grant ==> AppendTimes(u.permissions, perm, Occurrences(u.roles, role)) ==
                          AppendTimes(perms, perm, Occurrences(u.roles[i..], role))
      invariant !grant ==> RemoveTimes(u.permissions, perm, Occurrences(u.roles, role)) ==
                           RemoveTimes(perms, perm, Occurrences(u.roles[i..], role))
    {
      assert u.roles[i..][1..] == u.roles[i + 1..];
      if u.roles[i] == role {
        if grant {
          perms := perms + [perm];
        } else {
          perms := CutFirst(perms, perm);
        }
      }
    }
    v := u.(permissions := perms);
  }

  class RBAC {
    var roles: map<string, seq<string>>
    var users: map<string, User>
    var permissions: map<string, Permission>

    function View(): Db
      reads this
    {
      Db(roles, users, permissions)
    }

    constructor ()
      ensures View() == EMPTY.db
    {
      roles, users, permissions := map[], map[], map[];
    }

    method AddRole(id: string, perms: seq<string>) returns (ok: bool)
      modifies this
      ensures ok <==> id !in old(roles)
      ensures roles == (if ok then old(roles)[id := perms] else old(roles))
      ensures users == old(users) && permissions == old(permissions)
      ensures View() == Step(old(View()), Op.AddRole(id, perms))
    {
      ok := id !in roles;
      if ok { roles := roles[id := perms]; }
    }

    method UpdateRole(id: string, perms: seq<string>) returns (ok: bool)
      modifies this
      ensures ok <==> id in old(roles)
      ensures roles == (if ok then old(roles)[id := perms] else old(roles))
      ensures users == old(users) && permissions == old(permissions)
      ensures View() == Step(old(View()), Op.UpdateRole(id, perms))
    {
      ok := id in roles;
      if ok { roles := roles[id := perms]; }
    }

    method DeleteRole(id: string) returns (ok: bool)
      modifies this
      ensures ok <==> id in old(roles)
      ensures roles == old(roles) - {id}
      ensures users == old(users) && permissions == old(permissions)
      ensures View() == Step(old(View()), Op.DeleteRole(id))
    {
      ok := id in roles;
      roles := roles - {id};
    }

    method AddPermission(id: string, permission: Permission) returns (ok: bool)
      modifies this
      ensures ok <==> id !in old(permissions)
      ensures permissions == (if ok then old(permissions)[id := permission] else old(permissions))
      ensures users == old(users) && roles == old(roles)
      ensures View() == Step(old(View()), Op.AddPermission(id, permission))
    {
      ok := id !in permissions;
      if ok { permissions := permissions[id := permission]; }
    }

    method UpdatePermission(id: string, permission: Permission) returns (ok: bool)
      modifies this
      ensures ok <==> id in old(permissions)
      ensures permissions == (if ok then old(permissions)[id := permission] else old(permissions))
      ensures users == old(users) && roles == old(roles)
      ensures View() == Step(old(View()), Op.UpdatePermission(id, permission))
    {
      ok := id in permissions;
      if ok { permissions := permissions[id := permission]; }
    }

    method DeletePermission(id: string) returns (ok: bool)
      modifies this
      ensures ok <==> id in old(permissions)
      ensures permissions == old(permissions) - {id}
      ensures users == old(users) && roles == old(roles)
      ensures View() == Step(old(View()), Op.DeletePermission(id))
    {
      ok := id in permissions;
      permissions := permissions - {id};
    }

    method AddUser(id: string, user: User) returns (ok: bool)
      modifies this
      ensures ok <==> id !in old(users)
      ensures users == (if ok then old(users)[id := user] else old(users))
      ensures roles == old(roles) && permissions == old(permissions)
      ensures View() == Step(old(View()), Op.AddUser(id, user))
    {
      ok := id !in users;
      if ok { users := users[id := user]; }
    }

    method DeleteUser(id: string) returns (ok: bool)
      modifies this
      ensures ok <==> id in old(users)
      ensures users == old(users) - {id}
      ensures roles == old(roles) && permissions == old(permissions)
      ensures View() == Step(old(View()), Op.DeleteUser(id))
    {
      ok := id in users;
      users := users - {id};
    }

    method AssignRoleToUser(userID: string, roleID: string) returns (ok: bool)
      modifies this
      ensures ok <==> userID in old(users) && roleID in old(roles) && roleID !in old(users)[userID].roles
      ensures ok ==> users == old(users)[userID := User(old(users)[userID].roles + [roleID],
                                                        old(users)[userID].permissions + old(roles)[roleID])]
      ensures !ok ==> users == old(users)
      ensures roles == old(roles) && permissions == old(permissions)
      ensures View() == Step(old(View()), AssignRole(userID, roleID))
    {
      if userID !in users || roleID !in roles { return false; }
      var user := users[userID];
      for i := 0 to |user.roles|
        invariant roleID !in user.roles[..i]
      {
        if user.roles[i] == roleID { return false; }
      }
      var perms := user.permissions;
      for i := 0 to |roles[roleID]|
        invariant perms == user.permissions + roles[roleID][..i]
      {
        perms := perms + [roles[roleID][i]];
      }
      assert user.roles[..|user.roles|] == user.roles && roles[roleID][..|roles[roleID]|] == roles[roleID];
      users := users[userID := User(user.roles + [roleID], perms)];
      return true;
    }

    method RemoveRoleFromUser(userID: string, roleID: string) returns (ok: bool)
      modifies this
      ensures ok <==> userID in old(users) && roleID in old(users)[userID].roles
      ensures roles == old(roles) && permissions == old(permissions) && users.Keys == old(users).Keys
      ensures forall u :: u in users && !(ok && u == userID) ==> users[u] == old(users)[u]
      ensures ok ==> DropsOnly(old(users)[userID], users[userID], roleID, Grants(roles, roleID))
      ensures View() == Step(old(View()), RemoveRole(userID, roleID))
    {
      if userID !in users { return false; }
      if roleID !in users[userID].roles { return false; }
      var edited := CutRole(users[userID], roleID, Grants(roles, roleID));
      RemoveRoleCuts(View(), userID, roleID);
      users := users[userID := edited];
      return true;
    }

    /** The outer loop over all users, in whatever order the map yields them. */
    method EditHolders(roleID: string, perm: string, grant: bool)
      modifies this`users
      ensures users == map u | u in old(users) ::
                         if grant then Granting(old(users)[u], roleID, perm) else Revoking(old(users)[u], roleID, perm)
    {
      var todo := users.Keys;
      while todo != {}
        invariant todo <= users.Keys == old(users).Keys
        invariant forall u :: u in todo ==> users[u] == old(users)[u]
        invariant forall u :: u in users && u !in todo ==>
                    users[u] ==
                        if grant then Granting(old(users)[u], roleID, perm) else Revoking(old(users)[u], roleID, perm)
      {
        var u :| u in todo;
        var edited := EditUser(users[u], roleID, perm, grant);
        users := users[u := edited];
        todo := todo - {u};
      }
    }

    method AssignPermissionToRole(roleID: string, perm: string) returns (ok: bool)
      modifies this
      ensures ok <==> roleID in old(roles) && perm in old(permissions) && perm !in old(roles)[roleID]
      ensures roles == (if ok then old(roles)[roleID := old(roles)[roleID] + [perm]] else old(roles))
      ensures permissions == old(permissions) && users.Keys == old(users).Keys
      ensures ok ==> forall u :: u in users ==> GainsOnly(old(users)[u], users[u], roleID, perm)
      ensures !ok ==> users == old(users)
      ensures View() == Step(old(View()), AssignPermission(roleID, perm))
    {
      if roleID !in roles || perm !in permissions { return false; }
      for i := 0 to |roles[roleID]|
        invariant perm !in roles[roleID][..i]
      {
        if roles[roleID][i] == perm { return false; }
      }
      roles := roles[roleID := roles[roleID] + [perm]];
      EditHolders(roleID, perm, true);
      forall u | u in users ensures GainsOnly(old(users)[u], users[u], roleID, perm) {
        GrantingMeans(old(users)[u], roleID, perm);
      }
      return true;
    }

    method RemovePermissionFromRole(roleID: string, perm: string) returns (ok: bool)
      modifies this
      ensures ok <==> roleID in old(roles) && perm in old(roles)[roleID]
      ensures roles.Keys == old(roles).Keys && permissions == old(permissions) && users.Keys == old(users).Keys
      ensures forall q :: q in roles && !(ok && q == roleID) ==> roles[q] == old(roles)[q]
      ensures ok ==> multiset(roles[roleID]) == multiset(old(roles)[roleID]) - multiset{perm}
      ensures ok ==> forall u :: u in users ==> LosesOnly(old(users)[u], users[u], roleID, perm)
      ensures !ok ==> users == old(users)
      ensures View() == Step(old(View()), RemovePermission(roleID, perm))
    {
      if roleID !in roles || perm !in roles[roleID] { return false; }
      var perms := CutFirst(roles[roleID], perm);
      RemoveFirstCount(roles[roleID], perm);
      roles := roles[roleID := perms];
      EditHolders(roleID, perm, false);
      forall u | u in users ensures LosesOnly(old(users)[u], users[u], roleID, perm) {
        RevokingMeans(old(users)[u], roleID, perm);
      }
      return true;
    }

    method HasPermission(userID: string, resource: string, action: string) returns (b: bool)
      ensures b <==> InList(View(), userID, resource, action) || InRoles(View(), userID, resource, action)
      ensures b <==> MayUse(View(), userID, resource, action)
    {
      MayUseIff(View(), userID, resource, action);
      if userID !in users { return false; }
      var user := users[userID];
      for i := 0 to |user.permissions|
        invariant forall j :: 0 <= j < i ==> !Matches(View(), user.permissions[j], resource, action)
      {
        if Matches(View(), user.permissions[i], resource, action) { return true; }
      }
      for i := 0 to |user.roles|
        invariant forall j, p :: 0 <= j < i && user.roles[j] in roles && p in roles[user.roles[j]] ==>
                    !Matches(View(), p, resource, action)
      {
        if user.roles[i] in roles {
          var perms := roles[user.roles[i]];
          for k := 0 to |perms|
            invariant forall j :: 0 <= j < k ==> !Matches(View(), perms[j], resource, action)
          {
            if Matches(View(), perms[k], resource, action) { return true; }
          }
        }
      }
      return false;
    }
  }

  /** In a balanced state HasPermission is the answer of the flattened list, and of the relation. */
  lemma HasPermissionAgrees(l: Ledger, u: string, resource: string, action: string)
    requires InStep(l)
    ensures InList(l.db, u, resource, action) || InRoles(l.db, u, resource, action) <==>
            InList(l.db, u, resource, action)
    ensures InList(l.db, u, resource, action) <==>
              u in l.db.users && exists p :: Matches(l.db, p, resource, action) && GrantedTo(l, u, p)
  {
    if InRoles(l.db, u, resource, action) { RolesAddNothing(l, u, resource, action); }
    if u in l.db.users {
      forall p ensures p in l.db.users[u].permissions <==> GrantedTo(l, u, p) { ListedIffGranted(l, u, p); }
    }
  }
}
