/**
 * The instance's members and their role audit log. Every operation is one transaction; `log` is every audit row ever
 * written, of which retention keeps the newest.
 */
module RoleTable {
  import opened Common

  const AUDIT_RETENTION_LIMIT := 10_000
  const MAX_SAFE_INTEGER := 9_007_199_254_740_991

  datatype Role = Admin | Member

  datatype Source = Local | Bootstrap

  datatype Action = AdminClaimed | MemberAdded | RoleChanged | MemberRemoved

  datatype MemberRow = MemberRow(username: string, role: Role, createdBy: nat)

  datatype AuditRow = AuditRow(
    id: int,
    actor: nat,
    target: nat,
    action: Action,
    previous: Option<Role>,
    current: Option<Role>)

  datatype Error = BootstrapAdminRequired | MemberExists | MemberNotFound | LastAdminRequired

  type Roles = map<nat, Role>

  function RolesOf(members: map<nat, MemberRow>): Roles { map u | u in members :: members[u].role }

  function Set(roles: Roles, user: nat, role: Option<Role>): Roles {
    if role.Some? then roles[user := role.value] else roles - {user}
  }

  /** The roles after every entry of the log, from an empty table. */
  function Replay(log: seq<AuditRow>): Roles {
    if log == [] then map[] else Set(Replay(log[..|log| - 1]), log[|log| - 1].target, log[|log| - 1].current)
  }

  /** The roles before the entries of the log, newest undone first. */
  function Rewind(roles: Roles, log: seq<AuditRow>): Roles
    decreases |log|
  {
    if log == [] then roles
    else Rewind(Set(roles, log[|log| - 1].target, log[|log| - 1].previous), log[..|log| - 1])
  }

  /** Every entry names the role its target had just before it, and changes it. */
  ghost predicate Faithful(log: seq<AuditRow>) {
    forall i :: 0 <= i < |log| ==>
      log[i].previous == Lookup(Replay(log[..i]), log[i].target) && log[i].current != log[i].previous
  }

  /** The newest id of the log, or zero. */
  function LastId(log: seq<AuditRow>): int { if log == [] then 0 else log[|log| - 1].id }

  /** Ids are positive and increase. */
  predicate Increasing(log: seq<AuditRow>) {
    log == [] || (Increasing(log[..|log| - 1]) && LastId(log[..|log| - 1]) < log[|log| - 1].id)
  }

  function Admins(members: map<nat, MemberRow>): set<nat> { set u | u in members && members[u].role == Admin }

  /** This user is the last administrator. */
  predicate SoleAdmin(members: map<nat, MemberRow>, user: nat) { Admins(members) == {user} }

  /** Once there is an administrator, there still is one. */
  predicate KeepsAdmin(before: map<nat, MemberRow>, after: map<nat, MemberRow>) {
    Admins(before) != {} ==> Admins(after) != {}
  }

  /** The rows newer than the cutoff. */
  function Newer(log: seq<AuditRow>, cutoff: int): seq<AuditRow> {
    if log == [] then [] else (if log[0].id > cutoff then [log[0]] else []) + Newer(log[1..], cutoff)
  }

  /** The members' roles are what the log leads to. */
  ghost predicate Consistent(members: map<nat, MemberRow>, log: seq<AuditRow>) {
    RolesOf(members) == Replay(log) && Faithful(log)
  }

  /** The entry says what was done to the table: one user's role changed, and nobody else's. */
  ghost predicate Describes(entry: AuditRow, before: map<nat, MemberRow>, after: map<nat, MemberRow>) {
    && (forall u :: u != entry.target ==> Lookup(after, u) == Lookup(before, u))
    && entry.previous == (if entry.target in before then Some(before[entry.target].role) else None)
    && entry.current == (if entry.target in after then Some(after[entry.target].role) else None)
    && entry.current != entry.previous
  }

  class MemberTable {
    var members: map<nat, MemberRow>
    var audit: seq<AuditRow>
    ghost var log: seq<AuditRow>
    /** How many of the oldest entries retention has deleted. */
    ghost var dropped: nat

    constructor ()
      ensures Valid() && members == map[] && log == []
    {
      members, audit, log, dropped := map[], [], [], 0;
    }

    ghost predicate Valid()
      reads this
    {
      Consistent(members, log) && Retained()
    }

    /** The stored rows are the newest entries of the log, and at most as many as the limit while ids are safe. */
    ghost predicate Retained()
      reads this
    {
      && Increasing(log) && dropped <= |log| && audit == log[dropped..]
      && (LastId(log) <= MAX_SAFE_INTEGER ==> |audit| <= AUDIT_RETENTION_LIMIT)
    }

    /** An id the database may give the next audit row. */
    ghost predicate IsNextId(id: int)
      reads this
    {
      id > LastId(log)
    }

    /** The stored rows alone lead from today's roles back to the roles before the oldest of them. */
    lemma StoredRowsRewind()
      requires Valid()
      ensures Rewind(RolesOf(members), audit) == Replay(log[..dropped])
    {
      RewindRestores(log, dropped);
    }

    /**
     * Appends one entry, and deletes what lies more than the retention limit below its id; past the safe integers
     * nothing is deleted any more.
     */
    method WriteAudit(entry: AuditRow)
      requires Retained() && IsNextId(entry.id)
      modifies this`audit, this`log, this`dropped
      ensures Retained() && log == old(log) + [entry] && audit != [] && audit[|audit| - 1] == entry
      ensures forall k :: 0 <= k < |old(audit)| && old(audit)[k].id > entry.id - 10_000 ==> old(audit)[k] in audit
      ensures entry.id <= 9_007_199_254_740_991 ==> |audit| <= 10_000
      ensures entry.id > MAX_SAFE_INTEGER ==> audit == old(audit) + [entry]
      ensures |audit| <= AUDIT_RETENTION_LIMIT
              <==> entry.id <= MAX_SAFE_INTEGER || |old(audit)| < AUDIT_RETENTION_LIMIT
    {
      ghost var log' := log + [entry];
      Appended(log, entry);
      StoredIsSuffix(log', dropped);
      KeptIsBounded(log', dropped);
      assert audit + [entry] == log'[dropped..];
      audit := audit + [entry];
      if entry.id <= MAX_SAFE_INTEGER && entry.id > AUDIT_RETENTION_LIMIT {
        audit := Newer(audit, entry.id - AUDIT_RETENTION_LIMIT);
      }
      log, dropped := log', Kept(log', dropped);
    }

    /** Whether a demotion or removal of this administrator leaves another one. */
    method AnotherAdminExists(ghost user: nat) returns (another: bool)
      requires user in members && members[user].role == Admin
      ensures another <==> !SoleAdmin(members, user)
    {
      var admins := set u | u in members && members[u].role == Admin;
      another := |admins| > 1;
      OnlyAdmin(members, user);
      assert admins == Admins(members);
    }

    /** Records what was just done to the table. */
    method Record(ghost before: map<nat, MemberRow>, entry: AuditRow)
      requires Consistent(before, log) && Retained() && IsNextId(entry.id) && Describes(entry, before, members)
      modifies this`audit, this`log, this`dropped
      ensures Valid() && log == old(log) + [entry]
    {
      Recorded(before, members, log, entry);
      WriteAudit(entry);
    }

    /** Stores the role of an administrator configured from outside. */
    method ClaimBootstrapAdmin(actor: nat, username: string, source: Source, id: int)
      returns (r: Result<MemberRow, Error>)
      requires Valid() && IsNextId(id)
      modifies this
      ensures Valid() && old(log) <= log
      ensures r.Err? <==> source != Bootstrap
      ensures r.Err? ==> members == old(members) && log == old(log)
      ensures r.Ok? ==>
        && actor in members && members[actor] == r.value && r.value.role == Admin && r.value.username == username
        && (forall u :: u != actor ==> Lookup(members, u) == Lookup(old(members), u))
        && var previous := Lookup(RolesOf(old(members)), actor);
           r.value.createdBy == (if actor in old(members) then old(members)[actor].createdBy else actor)
           && log == if previous == Some(Admin) then old(log)
                  else old(log) + [AuditRow(id, actor, actor, AdminClaimed, previous, Some(Admin))]
      ensures KeepsAdmin(old(members), members)
    {
      if source != Bootstrap {
        return Err(BootstrapAdminRequired);
      }
      if actor in members && members[actor].role == Admin {
        if members[actor].username != username {
          members := members[actor := members[actor].(username := username)];
          assert RolesOf(members) == RolesOf(old(members));
          assert Consistent(members, log);
        }
        assert actor in Admins(members);
        return Ok(members[actor]);
      }
      ghost var before := members;
      var previous := if actor in members then Some(members[actor].role) else None;
      members := if actor in members then members[actor := members[actor].(username := username, role := Admin)]
                 else members[actor := MemberRow(username, Admin, actor)];
      Record(before, AuditRow(id, actor, actor, AdminClaimed, previous, Some(Admin)));
      assert actor in Admins(members);
      return Ok(members[actor]);
    }

    method AddMember(actor: nat, target: nat, username: string, role: Role, id: int)
      returns (r: Result<MemberRow, Error>)
      requires Valid() && IsNextId(id)
      modifies this
      ensures Valid()
      ensures r.Err? <==> target in old(members)
      ensures r.Err? ==> members == old(members) && log == old(log)
      ensures r.Ok? ==>
        members == old(members)[target := r.value] && r.value == MemberRow(username, role, actor)
        && log == old(log) + [AuditRow(id, actor, target, MemberAdded, None, Some(role))]
      ensures KeepsAdmin(old(members), members)
    {
      if target in members {
        return Err(MemberExists);
      }
      ghost var before := members;
      var row := MemberRow(username, role, actor);
      members := members[target := row];
      assert forall u :: u != target ==> Lookup(members, u) == Lookup(before, u);
      AdminsAfter(before, members, target);
      Record(before, AuditRow(id, actor, target, MemberAdded, None, Some(role)));
      return Ok(row);
    }

    method UpdateRole(actor: nat, user: nat, role: Role, id: int) returns (r: Result<MemberRow, Error>)
      requires Valid() && IsNextId(id)
      modifies this
      ensures Valid()
      ensures r == Err(MemberNotFound) <==> user !in old(members)
      ensures r == Err(LastAdminRequired) <==> role != Admin && SoleAdmin(old(members), user)
      ensures r.Err? ==> members == old(members) && log == old(log)
      ensures r.Ok? ==>
        user in old(members) && members == old(members)[user := old(members)[user].(role := role)]
        && r.value == members[user]
        && log == if old(members)[user].role == role then old(log)
                  else old(log) + [AuditRow(id, actor, user, RoleChanged, Some(old(members)[user].role), Some(role))]
      ensures KeepsAdmin(old(members), members)
    {
      if user !in members {
        return Err(MemberNotFound);
      }
      ghost var before := members;
      NotAdmin(members, user);
      if members[user].role == Admin && role != Admin {
        var another := AnotherAdminExists(user);
        if !another {
          return Err(LastAdminRequired);
        }
      }
      if members[user].role != role {
        var previous := members[user].role;
        members := members[user := members[user].(role := role)];
        Record(before, AuditRow(id, actor, user, RoleChanged, Some(previous), Some(role)));
        AdminsAfter(before, members, user);
      } else {
        assert members[user].(role := role) == members[user];
        assert members == before[user := before[user].(role := role)];
      }
      return Ok(members[user]);
    }

    method RemoveMember(actor: nat, user: nat, id: int) returns (r: Result<(), Error>)
      requires Valid() && IsNextId(id)
      modifies this
      ensures Valid()
      ensures r == Err(MemberNotFound) <==> user !in old(members)
      ensures r == Err(LastAdminRequired) <==> SoleAdmin(old(members), user)
      ensures r.Err? ==> members == old(members) && log == old(log)
      ensures r.Ok? ==>
        user in old(members) && members == old(members) - {user}
        && log == old(log) + [AuditRow(id, actor, user, MemberRemoved, Some(old(members)[user].role), None)]
      ensures KeepsAdmin(old(members), members)
    {
      if user !in members {
        return Err(MemberNotFound);
      }
      ghost var before := members;
      var previous := members[user].role;
      NotAdmin(members, user);
      if previous == Admin {
        var another := AnotherAdminExists(user);
        if !another {
          return Err(LastAdminRequired);
        }
      }
      members := members - {user};
      assert forall u :: u != user ==> Lookup(members, u) == Lookup(before, u);
      AdminsAfter(before, members, user);
      Record(before, AuditRow(id, actor, user, MemberRemoved, Some(previous), None));
      return Ok(());
    }
  }

  lemma OnlyAdmin(members: map<nat, MemberRow>, user: nat)
    requires user in members
    ensures members[user].role == Admin && |Admins(members)| <= 1 <==> Admins(members) == {user}
  {
    var others := Admins(members) - {user};
    assert |others| == 0 <==> others == {};
    if user in Admins(members) {
      assert Admins(members) == others + {user};
    } else {
      assert Admins(members) == others;
    }
  }

  lemma NotAdmin(members: map<nat, MemberRow>, user: nat)
    ensures SoleAdmin(members, user) ==> user in members && members[user].role == Admin
  {
    assert SoleAdmin(members, user) ==> user in Admins(members);
  }

  lemma AdminsAfter(before: map<nat, MemberRow>, after: map<nat, MemberRow>, user: nat)
    requires forall u :: u != user ==> Lookup(after, u) == Lookup(before, u)
    requires user in before && before[user].role == Admin ==>
      (user in after && after[user].role == Admin) || !SoleAdmin(before, user)
    ensures KeepsAdmin(before, after)
  {
    if Admins(before) != {} {
      var u :| u in Admins(before) && (u != user || Admins(before) == {user});
      assert Lookup(after, u) == Lookup(before, u) || u == user;
      assert u in Admins(after);
    }
  }

  /** One more entry that describes what was done to the table keeps the log faithful to it. */
  lemma {:induction false} Recorded(before: map<nat, MemberRow>, after: map<nat, MemberRow>, log: seq<AuditRow>,
                                    entry: AuditRow)
    requires Consistent(before, log) && Describes(entry, before, after)
    ensures Consistent(after, log + [entry])
  {
    var log' := log + [entry];
    assert log'[..|log|] == log;
    forall u ensures Lookup(RolesOf(after), u) == Lookup(Replay(log'), u) {
      assert Lookup(after, u) == Lookup(before, u) || u == entry.target;
    }
    SameRoles(RolesOf(after), Replay(log'));
    forall i | 0 <= i < |log'|
      ensures log'[i].previous == Lookup(Replay(log'[..i]), log'[i].target) && log'[i].current != log'[i].previous
    {
      if i < |log| { assert log'[..i] == log[..i]; }
    }
  }

  lemma SameRoles(a: Roles, b: Roles)
    requires forall u :: Lookup(a, u) == Lookup(b, u)
    ensures a == b
  {
    forall u ensures u in a <==> u in b { assert Lookup(a, u) == Lookup(b, u); }
    forall u | u in a ensures a[u] == b[u] { assert Lookup(a, u) == Lookup(b, u); }
  }

  /** The first row at or after position `k` that a deletion up to the cutoff keeps. */
  function FirstNewer(log: seq<AuditRow>, k: nat, cutoff: int): (j: nat)
    requires k <= |log|
    ensures k <= j <= |log| && (j < |log| ==> log[j].id > cutoff)
    ensures forall i :: k <= i < j ==> log[i].id <= cutoff
    decreases |log| - k
  {
    if k == |log| || log[k].id > cutoff then k else FirstNewer(log, k + 1, cutoff)
  }

  /** Deleting by id from a suffix of an increasing log leaves a suffix. */
  lemma {:induction false} NewerIsSuffix(log: seq<AuditRow>, k: nat, cutoff: int)
    requires Increasing(log) && k <= |log|
    ensures Newer(log[k..], cutoff) == log[FirstNewer(log, k, cutoff)..]
    decreases |log| - k
  {
    if k < |log| {
      assert log[k..][1..] == log[k + 1..];
      if log[k].id > cutoff {
        forall i | 0 <= i < |log[k..]| ensures log[k..][i].id > cutoff { Spread(log, k, k + i); }
        AllNewer(log[k..], cutoff);
      } else {
        NewerIsSuffix(log, k + 1, cutoff);
      }
    }
  }

  lemma Appended(log: seq<AuditRow>, entry: AuditRow)
    requires Increasing(log) && entry.id > LastId(log)
    ensures Increasing(log + [entry]) && LastId(log + [entry]) == entry.id
  {
    assert (log + [entry])[..|log|] == log;
  }

  /** The stored rows after a write, and from where on they are the log's. */
  function Stored(rows: seq<AuditRow>, id: int): seq<AuditRow> {
    if AUDIT_RETENTION_LIMIT < id <= MAX_SAFE_INTEGER then Newer(rows, id - AUDIT_RETENTION_LIMIT) else rows
  }

  function Kept(log: seq<AuditRow>, dropped: nat): (kept: nat)
    requires dropped <= |log|
    ensures dropped <= kept <= |log|
  {
    if AUDIT_RETENTION_LIMIT < LastId(log) <= MAX_SAFE_INTEGER
    then FirstNewer(log, dropped, LastId(log) - AUDIT_RETENTION_LIMIT) else dropped
  }

  lemma LastSurvives(log: seq<AuditRow>, dropped: nat, cutoff: int)
    requires dropped < |log| && cutoff < LastId(log)
    ensures FirstNewer(log, dropped, cutoff) < |log|
  {
    assert log[|log| - 1].id > cutoff;
  }

  lemma KeptIsBounded(log: seq<AuditRow>, dropped: nat)
    requires Increasing(log) && dropped < |log|
    ensures Kept(log, dropped) < |log|
    ensures LastId(log) <= MAX_SAFE_INTEGER ==> |log| - Kept(log, dropped) <= AUDIT_RETENTION_LIMIT
  {
    if AUDIT_RETENTION_LIMIT < LastId(log) <= MAX_SAFE_INTEGER {
      LastSurvives(log, dropped, LastId(log) - AUDIT_RETENTION_LIMIT);
    }
    Spread(log, Kept(log, dropped), |log| - 1);
  }

  lemma StoredIsSuffix(log: seq<AuditRow>, dropped: nat)
    requires Increasing(log) && dropped < |log|
    ensures Stored(log[dropped..], LastId(log)) == log[Kept(log, dropped)..]
  {
    NewerIsSuffix(log, dropped, LastId(log) - AUDIT_RETENTION_LIMIT);
  }

  lemma {:induction false} AllNewer(log: seq<AuditRow>, cutoff: int)
    requires forall i :: 0 <= i < |log| ==> log[i].id > cutoff
    ensures Newer(log, cutoff) == log
  {
    if log != [] {
      AllNewer(log[1..], cutoff);
      assert log == [log[0]] + log[1..];
    }
  }

  /** Later ids are greater by at least the distance, and the first one is positive. */
  lemma {:induction false} Spread(log: seq<AuditRow>, i: nat, j: nat)
    requires Increasing(log) && i <= j < |log|
    ensures 0 < log[i].id && log[j].id - log[i].id >= j - i
    decreases |log|
  {
    var init := log[..|log| - 1];
    if j < |log| - 1 {
      Spread(init, i, j);
    } else if i < j {
      Spread(init, i, j - 1);
    } else if i > 0 {
      Spread(init, i - 1, i - 1);
    }
  }

  /** Undoing the newest entries of a faithful log from the roles it led to gives back the roles before them. */
  lemma {:induction false} RewindRestores(log: seq<AuditRow>, k: nat)
    requires Faithful(log) && k <= |log|
    ensures Rewind(Replay(log), log[k..]) == Replay(log[..k])
    decreases |log| - k
  {
    if k == |log| {
      assert log[..k] == log;
    } else {
      var init := log[..|log| - 1];
      var last := log[|log| - 1];
      assert log[k..][..|log[k..]| - 1] == init[k..] && init[..k] == log[..k];
      forall i | 0 <= i < |init|
        ensures init[i].previous == Lookup(Replay(init[..i]), init[i].target) && init[i].current != init[i].previous
      {
        assert init[..i] == log[..i];
      }
      RewindRestores(init, k);
      forall u ensures Lookup(Set(Replay(log), last.target, last.previous), u) == Lookup(Replay(init), u) {
      }
      SameRoles(Set(Replay(log), last.target, last.previous), Replay(init));
    }
  }
}
