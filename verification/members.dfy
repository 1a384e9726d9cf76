/** Organisation membership (internal/rbac/rbac.go, internal/store/members.go,
    internal/api/member_handlers.go): the handlers' guards and writes, and which owners
    an organisation keeps over whole runs of requests. */
module Members {
  import opened Basics

  const Viewer := "viewer"
  const Member := "member"
  const Admin := "admin"
  const Owner := "owner"

  function Rank(role: string): nat {
    if role == Viewer then 1 else if role == Member then 2 else if role == Admin then 3
    else if role == Owner then 4 else 0
  }

  predicate IsValid(role: string) { Rank(role) > 0 }

  predicate AtLeast(role: string, min: string) { Rank(role) >= Rank(min) && Rank(role) > 0 }

  type Roles = map<nat, string>

  type Orgs = map<nat, Roles>

  function Owners(roles: Roles): set<nat> { set u | u in roles && roles[u] == Owner }

  /** Which of a request's reads succeed: the caller's role, the target's role in
      applyRole, and guardLastOwner's read of the target's role and count of owners. */
  datatype Reads = Reads(caller: bool, current: bool, target: bool, count: bool)

  datatype Request =
    | CreateOrg(user: nat, reply: Reply)
    | AddMember(org: nat, caller: nat, user: nat, role: string, found: Reads, reply: Reply)
    | SetRole(org: nat, caller: nat, user: nat, role: string, found: Reads, reply: Reply)
    | RemoveMember(org: nat, caller: nat, user: nat, found: Reads, reply: Reply)
    | DeleteOrg(org: nat, caller: nat, found: Reads, reply: Reply)

  datatype State = State(orgs: Orgs, next: nat)

  // ------------------------------------------------- what one request does

  function RolesOf(s: State, org: nat): Roles { if org in s.orgs then s.orgs[org] else map[] }

  /** RoleInOrg; None for no such member or a failed read. */
  function RoleInOrg(roles: Roles, user: nat, ok: bool): Option<string> {
    if ok && user in roles then Some(roles[user]) else None
  }

  predicate CanGrant(callerRole: string, role: string) { AtLeast(role, Admin) ==> callerRole == Owner }

  /** guardLastOwner lets the change pass; newRole is empty for a removal. */
  predicate Unguarded(roles: Roles, user: nat, newRole: string, found: Reads) {
    || RoleInOrg(roles, user, found.target) != Some(Owner)
    || newRole == Owner
    || !found.count
    || |Owners(roles)| > 1
  }

  predicate RoleApplies(roles: Roles, user: nat, role: string, callerRole: string, found: Reads) {
    && CanGrant(callerRole, role)
    && !(RoleInOrg(roles, user, found.current) == Some(Owner) && callerRole != Owner)
    && Unguarded(roles, user, role, found)
  }

  predicate Authorized(roles: Roles, caller: nat, min: string, found: Reads) {
    RoleInOrg(roles, caller, found.caller).Some? && AtLeast(roles[caller], min)
  }

  predicate ChangesRoles(r: Request) { r.AddMember? || r.SetRole? }

  function RoleGiven(r: Request): string
    requires ChangesRoles(r)
  {
    if r.AddMember? && r.role == "" then Member else r.role
  }

  /** The request passes its guards and its write takes place. */
  predicate Effective(s: State, r: Request) {
    && !r.reply.Error?
    && match r
       case CreateOrg(_, _) => true
       case AddMember(org, caller, user, role, found, _) =>
         && Authorized(RolesOf(s, org), caller, Admin, found)
         && RoleApplies(RolesOf(s, org), user, RoleGiven(r), RolesOf(s, org)[caller], found)
       case SetRole(org, caller, user, role, found, _) =>
         && Authorized(RolesOf(s, org), caller, Admin, found) && IsValid(role)
         && RoleApplies(RolesOf(s, org), user, role, RolesOf(s, org)[caller], found)
       case RemoveMember(org, caller, user, found, _) =>
         Authorized(RolesOf(s, org), caller, Admin, found) && Unguarded(RolesOf(s, org), user, "", found)
       case DeleteOrg(org, caller, found, _) =>
         Authorized(RolesOf(s, org), caller, Owner, found)
  }

  function Written(s: State, r: Request): State {
    match r
    case CreateOrg(user, _) => State(s.orgs[s.next := map[user := Owner]], s.next + 1)
    case AddMember(org, _, user, _, _, _) => s.(orgs := s.orgs[org := RolesOf(s, org)[user := RoleGiven(r)]])
    case SetRole(org, _, user, role, _, _) => s.(orgs := s.orgs[org := RolesOf(s, org)[user := role]])
    case RemoveMember(org, _, user, _, _) => s.(orgs := s.orgs[org := RolesOf(s, org) - {user}])
    case DeleteOrg(org, _, _, _) => s.(orgs := s.orgs - {org})
  }

  function Handle(s: State, r: Request): State { if Effective(s, r) then Written(s, r) else s }

  function Run(s: State, requests: seq<Request>): State
    decreases |requests|
  {
    if requests == [] then s else Run(Handle(s, requests[0]), requests[1..])
  }

  // ---------------------------------------------------------- the last owner

  /** Every organisation has an owner. */
  predicate Owned(s: State) {
    && (forall org :: org in s.orgs ==> Owners(s.orgs[org]) != {})
    && forall org :: org in s.orgs ==> org < s.next
  }

  lemma OwnersAfter(roles: Roles, user: nat, role: string)
    ensures Owners(roles[user := role]) == if role == Owner then Owners(roles) + {user} else Owners(roles) - {user}
    ensures Owners(roles - {user}) == Owners(roles) - {user}
  {
    assert forall u :: u in Owners(roles - {user}) <==> u in Owners(roles) && u != user;
    assert forall u :: u in Owners(roles[user := role]) <==>
      (if u == user then role == Owner else u in Owners(roles));
  }

  lemma OneLess(owners: set<nat>, user: nat)
    ensures owners - {user} == {} <==> owners == {} || owners == {user}
    ensures owners == {user} ==> |owners| == 1
  {
    assert owners == (owners - {user}) + (if user in owners then {user} else {});
  }

  /** The change would leave the organisation without an owner. */
  predicate TakesLastOwner(s: State, r: Request) {
    && !r.CreateOrg? && !r.DeleteOrg?
    && Owners(RolesOf(s, r.org)) == {r.user}
    && (r.RemoveMember? || RoleGiven(r) != Owner)
  }

  predicate GuardReadsFail(r: Request) {
    !r.CreateOrg? && !r.DeleteOrg? && (!r.found.target || !r.found.count)
  }

  /** Everything but guardLastOwner and, for a role change, the check that only owners
      modify an owner: the caller's rank, the role asked for, and a write that takes place. */
  predicate Admitted(s: State, r: Request)
    requires !r.CreateOrg? && !r.DeleteOrg?
  {
    var roles := RolesOf(s, r.org);
    && !r.reply.Error?
    && Authorized(roles, r.caller, Admin, r.found)
    && (r.SetRole? ==> IsValid(r.role))
    && (ChangesRoles(r) ==> CanGrant(roles[r.caller], RoleGiven(r)))
  }

  /** applyRole's check of the target's current role lets the caller go on. */
  predicate MayModify(s: State, r: Request)
    requires ChangesRoles(r)
  {
    || !r.found.current
    || r.user !in Owners(RolesOf(s, r.org))
    || r.caller in Owners(RolesOf(s, r.org))
  }

  predicate OtherwiseAdmitted(s: State, r: Request)
    requires !r.CreateOrg? && !r.DeleteOrg?
  {
    Admitted(s, r) && (ChangesRoles(r) ==> MayModify(s, r))
  }

  lemma EffectiveByGuards(s: State, r: Request)
    requires !r.CreateOrg? && !r.DeleteOrg?
    ensures Effective(s, r) <==>
      OtherwiseAdmitted(s, r)
      && Unguarded(RolesOf(s, r.org), r.user, if r.RemoveMember? then "" else RoleGiven(r), r.found)
  {
    hide Unguarded, AtLeast;
  }

  /** A request leaves an organisation without an owner exactly when it is about the only
      owner, passes every other guard, and one of guardLastOwner's two reads fails: a
      failed read is taken for "nothing to guard". */
  lemma LastOwnerLostIff(s: State, r: Request)
    requires Owned(s)
    ensures !Owned(Handle(s, r)) <==> TakesLastOwner(s, r) && OtherwiseAdmitted(s, r) && GuardReadsFail(r)
  {
    if r.CreateOrg? {
      assert r.user in Owners(map[r.user := Owner]);
    } else if !r.DeleteOrg? {
      EffectiveByGuards(s, r);
      OneLess(Owners(RolesOf(s, r.org)), r.user);
      if TakesLastOwner(s, r) { GuardOfOnlyOwner(s, r); }
      if Effective(s, r) { MemberWritten(s, r); }
      hide Owners, Effective, Written, OtherwiseAdmitted, Unguarded;
    }
  }

  lemma GuardOfOnlyOwner(s: State, r: Request)
    requires TakesLastOwner(s, r)
    ensures Unguarded(RolesOf(s, r.org), r.user, if r.RemoveMember? then "" else RoleGiven(r), r.found)
      <==> GuardReadsFail(r)
  {
    assert r.user in Owners(RolesOf(s, r.org)) && |Owners(RolesOf(s, r.org))| == 1;
  }

  /** The only owner of an organisation leaves it while the guard cannot read their role. */
  lemma FailedReadLosesLastOwner() returns (s: State, r: Request)
    ensures Owned(s) && r.RemoveMember? && GuardReadsFail(r) && r.found.caller && r.found.count && r.reply.Ok?
    ensures !Owned(Handle(s, r)) && 0 in Handle(s, r).orgs && Owners(Handle(s, r).orgs[0]) == {}
  {
    s, r := State(map[0 := map[7 := Owner]], 1), RemoveMember(0, 7, 7, Reads(true, true, false, true), Ok);
    assert Owners(map[7 := Owner]) == {7};
    LastOwnerLostIff(s, r);
    assert Handle(s, r).orgs[0] == map[];
  }

  /** A membership request writes one organisation's roles. */
  lemma MemberWritten(s: State, r: Request)
    requires !r.CreateOrg? && !r.DeleteOrg? && Effective(s, r)
    ensures var roles, s' := RolesOf(s, r.org), Written(s, r);
      && r.org in s.orgs && s'.next == s.next && s'.orgs.Keys == s.orgs.Keys
      && (forall org :: org in s.orgs && org != r.org ==> s'.orgs[org] == s.orgs[org])
      && Owners(s'.orgs[r.org]) ==
           if r.RemoveMember? || RoleGiven(r) != Owner then Owners(roles) - {r.user} else Owners(roles) + {r.user}
  {
    OwnersAfter(RolesOf(s, r.org), r.user, if r.RemoveMember? then "" else RoleGiven(r));
    hide Owners, Unguarded, RoleApplies;
  }

  /** Over any run of requests handled one after the other whose guards could read the
      rows, every organisation there is has an owner, whatever writes failed. */
  lemma {:induction false} EveryOrgHasAnOwner(s: State, requests: seq<Request>)
    requires Owned(s)
    requires forall i :: 0 <= i < |requests| ==> !GuardReadsFail(requests[i])
    ensures Owned(Run(s, requests))
    decreases |requests|
  {
    if requests != [] {
      LastOwnerLostIff(s, requests[0]);
      hide Handle, Owned, GuardReadsFail;
      EveryOrgHasAnOwner(Handle(s, requests[0]), requests[1..]);
    }
  }

  /** The guard and the write are two calls. When two requests of owners, each to remove
      the other, both pass the guard before either writes, no owner is left. */
  lemma ConcurrentRemovalsTakeBothOwners(roles: Roles, a: nat, b: nat, found: Reads)
    requires a != b && Owners(roles) == {a, b}
    ensures Unguarded(roles, a, "", found) && Unguarded(roles, b, "", found)
    ensures Owners(roles - {a} - {b}) == {}
  {
    assert |{a, b}| == 2;
    OwnersAfter(roles, a, "");
    OwnersAfter(roles - {a}, b, "");
    hide Owners;
  }

  // ----------------------------------------------- what non-owners can do

  /** The caller is not an owner of the organisation the request is about. */
  predicate ByNonOwner(s: State, r: Request, org: nat) {
    (r.CreateOrg? || r.org != org) || r.caller !in Owners(RolesOf(s, org))
  }

  predicate AllByNonOwners(s: State, requests: seq<Request>, org: nat)
    decreases |requests|
  {
    requests != [] ==>
      ByNonOwner(s, requests[0], org) && AllByNonOwners(Handle(s, requests[0]), requests[1..], org)
  }

  predicate IsAdmin(s: State, org: nat, user: nat) {
    user in RolesOf(s, org) && AtLeast(RolesOf(s, org)[user], Admin)
  }

  /** In a run of requests about an organisation made by users who were not its owners
      when they made them, nobody gains the rank of admin or more. */
  lemma {:induction false} NonOwnersPromoteNobody(s: State, requests: seq<Request>, org: nat, user: nat)
    requires org < s.next && AllByNonOwners(s, requests, org)
    requires IsAdmin(Run(s, requests), org, user)
    ensures IsAdmin(s, org, user)
    decreases |requests|
  {
    if requests != [] {
      NonOwnersPromoteNobody(Handle(s, requests[0]), requests[1..], org, user);
    }
  }

  /** A non-owner's role change takes an owner's role exactly when it is about that owner,
      passes the guards on the role asked for and on the last owner, and the read of the
      current role failed: without it the check that only owners modify an owner is skipped. */
  lemma NonOwnerDemotesIff(s: State, r: Request, user: nat)
    requires ChangesRoles(r) && ByNonOwner(s, r, r.org) && user in Owners(RolesOf(s, r.org))
    ensures user !in Owners(RolesOf(Handle(s, r), r.org)) <==>
      && r.user == user && !r.found.current && Admitted(s, r)
      && (!r.found.target || !r.found.count || |Owners(RolesOf(s, r.org))| > 1)
  {
    EffectiveByGuards(s, r);
    if Effective(s, r) {
      OwnersAfter(RolesOf(s, r.org), r.user, RoleGiven(r));
    }
  }

  /** An admin makes one of two owners a member while the owner's role cannot be read. */
  lemma FailedReadDemotesOwner() returns (s: State, r: Request)
    ensures Owned(s) && r.SetRole? && ByNonOwner(s, r, 0) && !r.found.current && r.found.target && r.found.count
    ensures 7 in Owners(RolesOf(s, 0)) && 7 !in Owners(RolesOf(Handle(s, r), 0))
  {
    var roles := map[7 := Owner, 8 := Owner, 9 := Admin];
    s, r := State(map[0 := roles], 1), SetRole(0, 9, 7, Member, Reads(true, false, true, true), Ok);
    assert Owners(roles) == {7, 8};
    NonOwnerDemotesIff(s, r, 7);
  }

  /** ... and as long as they only change roles, reading the current one first, every
      owner stays an owner. */
  lemma {:induction false} NonOwnersDemoteNoOwner(s: State, requests: seq<Request>, org: nat, user: nat)
    requires org < s.next && AllByNonOwners(s, requests, org)
    requires forall i :: 0 <= i < |requests| ==>
      ChangesRoles(requests[i]) && (requests[i].org == org ==> requests[i].found.current)
    requires user in Owners(RolesOf(s, org))
    ensures user in Owners(RolesOf(Run(s, requests), org))
    decreases |requests|
  {
    if requests != [] {
      var r := requests[0];
      assert user in Owners(RolesOf(Handle(s, r), org));
      NonOwnersDemoteNoOwner(Handle(s, r), requests[1..], org, user);
    }
  }

  // ------------------------------------------------ who may do what, in roles

  /** Roles from lowest to highest; any other word ranks below all of them. */
  lemma RankOrder(role: string)
    ensures Rank("viewer") == 1 && Rank("member") == 2 && Rank("admin") == 3 && Rank("owner") == 4
    ensures role != "viewer" && role != "member" && role != "admin" && role != "owner" ==>
      Rank(role) == 0 && !IsValid(role)
  {
  }

  /** An organisation disappears only in a request to delete it whose caller was one of its
      owners; and that, with the caller's role read and the write done, deletes it. */
  lemma OnlyOwnersDelete(s: State, r: Request, org: nat)
    requires org in s.orgs
    ensures org !in Handle(s, r).orgs ==>
      r.DeleteOrg? && r.org == org && r.caller in s.orgs[org] && s.orgs[org][r.caller] == "owner"
    ensures (r.DeleteOrg? && r.org == org && r.found.caller && !r.reply.Error?
             && r.caller in s.orgs[org] && s.orgs[org][r.caller] == "owner") ==> Handle(s, r).orgs == s.orgs - {org}
  {
  }

  /** Memberships change only in requests of the organisation's admins and owners. */
  lemma OnlyAdminsChangeMembers(s: State, r: Request, org: nat)
    requires org in s.orgs && org in Handle(s, r).orgs && org < s.next
    ensures Handle(s, r).orgs[org] != s.orgs[org] ==>
      && !r.CreateOrg? && r.org == org && r.caller in s.orgs[org]
      && (s.orgs[org][r.caller] == "admin" || s.orgs[org][r.caller] == "owner")
  {
  }

  function WithRole(s: State, org: nat, user: nat, role: string): State
    requires org in s.orgs
  {
    var roles: Roles := s.orgs[org];
    s.(orgs := s.orgs[org := roles[user := role]])
  }

  /** With all reads and the write succeeding, a role is set exactly when the caller is an
      admin or owner, the role is known, an owner is asking if the role is admin or owner or
      if the target is an owner, and the target is not the only owner unless it stays one. */
  lemma RoleSetIff(s: State, org: nat, caller: nat, user: nat, role: string)
    requires org in s.orgs && caller in s.orgs[org]
    ensures
      var roles: Roles, after := s.orgs[org], Handle(s, SetRole(org, caller, user, role, Reads(true, true, true, true), Ok));
      var allowed :=
        && (roles[caller] == "admin" || roles[caller] == "owner")
        && role in {"viewer", "member", "admin", "owner"}
        && (role in {"admin", "owner"} || user in Owners(roles) ==> roles[caller] == "owner")
        && !(Owners(roles) == {user} && role != "owner");
      after == if allowed then WithRole(s, org, user, role) else s
  {
    var roles := s.orgs[org];
    if user in Owners(roles) {
      assert |Owners(roles)| <= 1 <==> Owners(roles) == {user} by { OneOwner(Owners(roles), user); }
    }
  }

  lemma OneOwner(owners: set<nat>, user: nat)
    requires user in owners
    ensures |owners| <= 1 <==> owners == {user}
  {
    assert owners == (owners - {user}) + {user};
  }

  /** A new organisation has its creator as owner and nobody else. */
  lemma CreatorOwns(s: State, user: nat, reply: Reply)
    ensures Handle(s, CreateOrg(user, reply)) ==
      if reply.Error? then s else State(s.orgs[s.next := map[user := "owner"]], s.next + 1)
  {
  }

  /** With all reads and the write succeeding, a user is added as a role is set, except that
      no role means member and that an unknown word is stored as it is. */
  lemma MemberAddedIff(s: State, org: nat, caller: nat, user: nat, role: string)
    requires org in s.orgs && caller in s.orgs[org]
    ensures
      var roles: Roles, after := s.orgs[org], Handle(s, AddMember(org, caller, user, role, Reads(true, true, true, true), Ok));
      var given := if role == "" then "member" else role;
      var allowed :=
        && (roles[caller] == "admin" || roles[caller] == "owner")
        && (given in {"admin", "owner"} || user in Owners(roles) ==> roles[caller] == "owner")
        && !(Owners(roles) == {user} && given != "owner");
      after == if allowed then WithRole(s, org, user, given) else s
  {
    var roles := s.orgs[org];
    if user in Owners(roles) { OneOwner(Owners(roles), user); }
  }

  /** With all reads and the write succeeding, a member is removed exactly when an admin or
      owner asks and the member is not the only owner. */
  lemma MemberRemovedIff(s: State, org: nat, caller: nat, user: nat)
    requires org in s.orgs && caller in s.orgs[org]
    ensures
      var roles: Roles, after := s.orgs[org], Handle(s, RemoveMember(org, caller, user, Reads(true, true, true, true), Ok));
      after == if (roles[caller] == "admin" || roles[caller] == "owner") && Owners(roles) != {user}
               then s.(orgs := s.orgs[org := s.orgs[org] - {user}]) else s
  {
    var roles := s.orgs[org];
    if user in Owners(roles) { OneOwner(Owners(roles), user); }
  }

  // ------------------------------------------------------------ the handlers

  class Server {
    var orgs: Orgs
    var next: nat

    constructor ()
      ensures orgs == map[] && next == 0
    {
      orgs, next := map[], 0;
    }

    function Contents(): State
      reads this
    {
      State(orgs, next)
    }

    method ReadRole(org: nat, user: nat, ok: bool) returns (role: Option<string>)
      ensures role == RoleInOrg(RolesOf(Contents(), org), user, ok)
    {
      if ok && org in orgs && user in orgs[org] { role := Some(orgs[org][user]); } else { role := None; }
    }

    /** CountOrgOwners. */
    method CountOrgOwners(org: nat, ok: bool) returns (n: Option<nat>)
      ensures n == if ok then Some(|Owners(RolesOf(Contents(), org))|) else None
    {
      if !ok { return None; }
      if org !in orgs {
        assert Owners(map[]) == {};
        return Some(0);
      }
      var left, count := orgs[org].Keys, 0;
      ghost var counted: set<nat> := {};
      while left != {}
        invariant left <= orgs[org].Keys && counted <= Owners(orgs[org])
        invariant forall u :: u in orgs[org] && u !in left ==> (u in counted <==> orgs[org][u] == Owner)
        invariant forall u :: u in left ==> u !in counted
        invariant count == |counted|
        decreases |left|
      {
        var u :| u in left;
        left := left - {u};
        if orgs[org][u] == Owner {
          count, counted := count + 1, counted + {u};
        }
      }
      assert counted == Owners(orgs[org]);
      return Some(count);
    }

    method GuardLastOwner(org: nat, user: nat, newRole: string, found: Reads) returns (pass: bool)
      ensures pass == Unguarded(RolesOf(Contents(), org), user, newRole, found)
    {
      var current := ReadRole(org, user, found.target);
      if current.None? || current.value != Owner { return true; }
      if newRole == Owner { return true; }
      var owners := CountOrgOwners(org, found.count);
      if owners.None? { return true; }
      if owners.value <= 1 { return false; }
      return true;
    }

    method RequireOrgRole(org: nat, caller: nat, min: string, found: Reads) returns (role: Option<string>)
      ensures role == if Authorized(RolesOf(Contents(), org), caller, min, found)
                      then Some(RolesOf(Contents(), org)[caller]) else None
    {
      role := ReadRole(org, caller, found.caller);
      if role.Some? && !AtLeast(role.value, min) { role := None; }
    }

    method ApplyRole(org: nat, user: nat, newRole: string, callerRole: string, found: Reads, reply: Reply)
      returns (ok: bool)
      modifies this
      ensures var roles := RolesOf(old(Contents()), org);
        && next == old(next)
        && orgs == (if RoleApplies(roles, user, newRole, callerRole, found) && !reply.Error?
                    then old(orgs)[org := roles[user := newRole]] else old(orgs))
        && ok == (RoleApplies(roles, user, newRole, callerRole, found) && reply.Ok?)
    {
      if AtLeast(newRole, Admin) && callerRole != Owner { return false; }
      var current := ReadRole(org, user, found.current);
      if current.Some? && current.value == Owner && callerRole != Owner { return false; }
      var pass := GuardLastOwner(org, user, newRole, found);
      if !pass { return false; }
      if !reply.Error? {
        var roles := if org in orgs then orgs[org] else map[];
        orgs := orgs[org := roles[user := newRole]];
      }
      return reply.Ok?;
    }

    method HandleAddMember(org: nat, caller: nat, user: nat, role: string, found: Reads, reply: Reply)
      modifies this
      ensures Contents() == Handle(old(Contents()), AddMember(org, caller, user, role, found, reply))
    {
      var callerRole := RequireOrgRole(org, caller, Admin, found);
      if callerRole.None? { return; }
      var given := role;
      if given == "" { given := Member; }
      var ok := ApplyRole(org, user, given, callerRole.value, found, reply);
    }

    method HandleSetMemberRole(org: nat, caller: nat, user: nat, role: string, found: Reads, reply: Reply)
      modifies this
      ensures Contents() == Handle(old(Contents()), SetRole(org, caller, user, role, found, reply))
    {
      var callerRole := RequireOrgRole(org, caller, Admin, found);
      if callerRole.None? { return; }
      if !IsValid(role) { return; }
      var ok := ApplyRole(org, user, role, callerRole.value, found, reply);
    }

    method HandleRemoveMember(org: nat, caller: nat, user: nat, found: Reads, reply: Reply)
      modifies this
      ensures Contents() == Handle(old(Contents()), RemoveMember(org, caller, user, found, reply))
    {
      var callerRole := RequireOrgRole(org, caller, Admin, found);
      if callerRole.None? { return; }
      var pass := GuardLastOwner(org, user, "", found);
      if !pass { return; }
      if !reply.Error? && org in orgs { orgs := orgs[org := orgs[org] - {user}]; }
    }

    method HandleCreateOrg(user: nat, reply: Reply)
      modifies this
      ensures Contents() == Handle(old(Contents()), CreateOrg(user, reply))
    {
      if !reply.Error? { orgs, next := orgs[next := map[user := Owner]], next + 1; }
    }

    method HandleDeleteOrg(org: nat, caller: nat, found: Reads, reply: Reply)
      modifies this
      ensures Contents() == Handle(old(Contents()), DeleteOrg(org, caller, found, reply))
    {
      var callerRole := RequireOrgRole(org, caller, Owner, found);
      if callerRole.None? { return; }
      if !reply.Error? { orgs := orgs - {org}; }
    }
  }
}
