/** Transferring an account to another of its users: every other owner-level identity is demoted or
    deactivated, and the target becomes the one owner. */
module Ownership {
  import opened Common
  import opened Text

  // ---------------------------------------------------------------- roles

  type Lower = string -> string

  const APP_ROLES: set<string> := {
    "developer", "platform_team", "owner", "super_admin", "branch_admin", "admin", "teacher", "student", "accountant", "parent"}

  /** The lower-case function leaves the role names that the code spells out as they are. */
  ghost predicate KeepsRoleNames(lower: Lower) {
    forall r :: r in APP_ROLES + {"school_admin", "school_owner", "account_owner"} ==> lower(r) == r
  }

  /** The canonical name of a stored role, with the school administrator's database name. */
  function Canonical(lower: Lower, role: string): Option<string> {
    var value := lower(Trim(role));
    if value in {"school_owner", "account_owner"} then Some("owner")
    else if value in {"school_admin", "admin"} then Some("school_admin")
    else if value in {"appdeveloper", "app_developer"} then Some("developer")
    else if value in APP_ROLES then Some(value)
    else None
  }

  predicate OwnerLevel(lower: Lower, role: string) {
    Canonical(lower, role) in {Some("owner"), Some("super_admin")}
  }

  const STORED_OWNER_ROLES: set<string> := {"owner", "super_admin"}

  const NON_OWNER_ROLE_PRIORITY: seq<string> :=
    ["school_admin", "branch_admin", "accountant", "teacher", "parent", "student"]

  function FirstIn(priority: seq<string>, roles: set<string>): Option<string> {
    if priority == [] then None
    else if priority[0] in roles then Some(priority[0])
    else FirstIn(priority[1..], roles)
  }

  function CanonicalRoles(lower: Lower, roles: set<string>): set<string> {
    set r | r in roles && Canonical(lower, r).Some? :: Canonical(lower, r).value
  }

  /** The strongest role below ownership among the stored roles. */
  function Fallback(lower: Lower, roles: set<string>): Option<string> {
    FirstIn(NON_OWNER_ROLE_PRIORITY, CanonicalRoles(lower, roles))
  }

  /** Whether r comes before or at q in the order of strength. */
  ghost predicate AtLeast(r: string, q: string) {
    exists i, j :: 0 <= i <= j < |NON_OWNER_ROLE_PRIORITY| && NON_OWNER_ROLE_PRIORITY[i] == r && NON_OWNER_ROLE_PRIORITY[j] == q
  }

  lemma {:induction false} FirstInIsFirst(priority: seq<string>, roles: set<string>) returns (i: nat)
    ensures FirstIn(priority, roles).None? ==> forall r :: r in priority ==> r !in roles
    ensures FirstIn(priority, roles).Some? ==> i < |priority| && priority[i] == FirstIn(priority, roles).value && priority[i] in roles
    ensures FirstIn(priority, roles).Some? ==> forall j :: 0 <= j < i ==> priority[j] !in roles
  {
    i := 0;
    if priority != [] && priority[0] !in roles {
      var rest := priority[1..];
      i := FirstInIsFirst(rest, roles);
      i := i + 1;
      assert forall j :: 0 < j < |priority| ==> priority[j] == rest[j - 1];
    }
  }

  /** The fallback is one of the remaining roles and none of them is stronger; there is none exactly
      when no remaining role is below ownership. */
  lemma FallbackIsStrongest(lower: Lower, roles: set<string>)
    ensures Fallback(lower, roles).Some? <==>
            exists q :: q in CanonicalRoles(lower, roles) && q in NON_OWNER_ROLE_PRIORITY
    ensures Fallback(lower, roles).Some? ==>
              && Fallback(lower, roles).value in CanonicalRoles(lower, roles)
              && forall q :: q in CanonicalRoles(lower, roles) && q in NON_OWNER_ROLE_PRIORITY ==>
                   AtLeast(Fallback(lower, roles).value, q)
  {
    var canonical := CanonicalRoles(lower, roles);
    var i := FirstInIsFirst(NON_OWNER_ROLE_PRIORITY, canonical);
    if Fallback(lower, roles).Some? {
      forall q | q in canonical && q in NON_OWNER_ROLE_PRIORITY ensures AtLeast(Fallback(lower, roles).value, q) {
        var j :| 0 <= j < |NON_OWNER_ROLE_PRIORITY| && NON_OWNER_ROLE_PRIORITY[j] == q;
        assert NON_OWNER_ROLE_PRIORITY[j] in canonical;
      }
    }
  }

  /** In the order school administrator, branch administrator, accountant, teacher, parent, student. */
  lemma FallbackByName(lower: Lower, roles: set<string>)
    ensures var c := CanonicalRoles(lower, roles);
            Fallback(lower, roles) ==
            if "school_admin" in c then Some("school_admin")
            else if "branch_admin" in c then Some("branch_admin")
            else if "accountant" in c then Some("accountant")
            else if "teacher" in c then Some("teacher")
            else if "parent" in c then Some("parent")
            else if "student" in c then Some("student")
            else None
  {
    FallbackIsStrongest(lower, roles);
    var i := FirstInIsFirst(NON_OWNER_ROLE_PRIORITY, CanonicalRoles(lower, roles));
    assert NON_OWNER_ROLE_PRIORITY[0] == "school_admin" && NON_OWNER_ROLE_PRIORITY[1] == "branch_admin" &&
           NON_OWNER_ROLE_PRIORITY[2] == "accountant" && NON_OWNER_ROLE_PRIORITY[3] == "teacher" &&
           NON_OWNER_ROLE_PRIORITY[4] == "parent" && NON_OWNER_ROLE_PRIORITY[5] == "student";
  }

  /** The stored names, whatever their case and the space around them: four of owner level, three of a
      developer and two of a school administrator. */
  lemma StoredRoleNames(lower: Lower, role: string)
    ensures OwnerLevel(lower, role) <==> lower(Trim(role)) in {"owner", "super_admin", "school_owner", "account_owner"}
    ensures Canonical(lower, role) == Some("developer") <==> lower(Trim(role)) in {"developer", "appdeveloper", "app_developer"}
    ensures Canonical(lower, role) == Some("school_admin") <==> lower(Trim(role)) in {"school_admin", "admin"}
  {
  }

  /** A canonical name is its own canonical name. */
  lemma CanonicalIsStable(lower: Lower, role: string)
    requires KeepsRoleNames(lower) && Canonical(lower, role).Some?
    ensures Canonical(lower, Canonical(lower, role).value) == Canonical(lower, role)
  {
    TrimmedRole(Canonical(lower, role).value);
  }

  /** The scan as the code makes it. */
  method GetHighestRemainingNonOwnerRole(lower: Lower, roles: set<string>) returns (role: Option<string>)
    ensures role == Fallback(lower, roles)
  {
    var active := CanonicalRoles(lower, roles);
    for i := 0 to |NON_OWNER_ROLE_PRIORITY|
      invariant FirstIn(NON_OWNER_ROLE_PRIORITY[i..], active) == FirstIn(NON_OWNER_ROLE_PRIORITY, active)
    {
      if NON_OWNER_ROLE_PRIORITY[i] in active {
        return Some(NON_OWNER_ROLE_PRIORITY[i]);
      }
      assert NON_OWNER_ROLE_PRIORITY[i..][1..] == NON_OWNER_ROLE_PRIORITY[i + 1..];
    }
    return None;
  }

  // ---------------------------------------------------------------- the account's identities

  datatype User = User(accountId: string, role: string, active: bool)

  datatype Membership = Membership(accountId: string, userId: string, role: string, scopeKey: string, active: bool, status: string,
                                   isDefault: bool)

  datatype Session = Session(accountId: string, userId: string, revoked: bool)

  datatype State = State(users: map<string, User>, memberships: map<string, Membership>, sessions: map<string, Session>)

  predicate Live(m: Membership) {
    m.active && m.status in {"", "active"}
  }

  predicate LiveOwner(lower: Lower, m: Membership) {
    Live(m) && OwnerLevel(lower, m.role)
  }

  /** Another user whom the transfer takes ownership from. */
  predicate Displaced(lower: Lower, s: State, accountId: string, targetId: string, u: string) {
    && u in s.users && s.users[u].accountId == accountId && u != targetId
    && (OwnerLevel(lower, s.users[u].role) ||
        exists k :: k in s.memberships && s.memberships[k].userId == u && LiveOwner(lower, s.memberships[k]))
  }

  function Ended(m: Membership): Membership {
    m.(active := false, status := "revoked", isDefault := false)
  }

  predicate RevokedFor(m: Membership, accountId: string, users: set<string>) {
    m.accountId == accountId && m.userId in users && m.role in STORED_OWNER_ROLES && m.active
  }

  function RevokeOwned(memberships: map<string, Membership>, accountId: string, users: set<string>): map<string, Membership> {
    map k | k in memberships ::
      if RevokedFor(memberships[k], accountId, users) then Ended(memberships[k]) else memberships[k]
  }

  /** The roles of the user's active memberships in the account. */
  function RemainingRoles(memberships: map<string, Membership>, accountId: string, u: string): set<string> {
    set k | k in memberships && memberships[k].accountId == accountId && memberships[k].userId == u && memberships[k].active &&
            memberships[k].status == "active" :: memberships[k].role
  }

  function Demoted(user: User, fallback: Option<string>): User {
    if fallback.Some? then user.(role := fallback.value, active := true) else user.(active := false)
  }

  function FallbackOf(lower: Lower, memberships: map<string, Membership>, accountId: string, u: string): Option<string> {
    Fallback(lower, RemainingRoles(RevokeOwned(memberships, accountId, {u}), accountId, u))
  }

  /** The state in which these users have lost their ownership. */
  function Displace(lower: Lower, s: State, accountId: string, users: set<string>): State {
    s.(memberships := RevokeOwned(s.memberships, accountId, users),
       users := map u | u in s.users ::
         if u in users then Demoted(s.users[u], FallbackOf(lower, s.memberships, accountId, u)) else s.users[u])
  }

  function OwnerScopeKey(accountId: string): string {
    "owner|account:" + accountId
  }

  predicate IsOwnerScope(m: Membership, accountId: string, targetId: string) {
    m.accountId == accountId && m.userId == targetId && m.scopeKey == OwnerScopeKey(accountId)
  }

  /** The target's memberships once its own ownership is made canonical. */
  function Settled(m: Membership, accountId: string, targetId: string): Membership {
    if m.accountId != accountId || m.userId != targetId then m
    else if IsOwnerScope(m, accountId, targetId) then m.(role := "owner", active := true, status := "active", isDefault := true)
    else if m.role in STORED_OWNER_ROLES then Ended(m)
    else m.(isDefault := false)
  }

  function Promote(s: State, accountId: string, targetId: string, newId: string): State
    requires targetId in s.users
  {
    var settled := map k | k in s.memberships :: Settled(s.memberships[k], accountId, targetId);
    var created := Membership(accountId, targetId, "owner", OwnerScopeKey(accountId), true, "active", true);
    s.(memberships :=
         if exists k :: k in settled && IsOwnerScope(settled[k], accountId, targetId) then settled else settled[newId := created],
       users := s.users[targetId := s.users[targetId].(role := "owner", active := true)])
  }

  function RevokeSessions(s: State, accountId: string, users: set<string>): State {
    s.(sessions := map k | k in s.sessions ::
         if s.sessions[k].accountId == accountId && s.sessions[k].userId in users then s.sessions[k].(revoked := true)
         else s.sessions[k])
  }

  // ---------------------------------------------------------------- the transfer

  datatype Error = NotOwner | NotFound | OtherAccount | Inactive | WrongPassword | NoTarget | AlreadyOwner | PlatformIdentity | EmailTaken

  datatype Actor = Actor(id: string, role: string, accountId: string)

  datatype Request = Request(actor: Actor, targetUserId: string, passwordMatches: bool, emailTaken: bool)

  type Answer = Result<set<string>, Error>

  function Check(lower: Lower, s: State, q: Request): Option<Error> {
    var target := Trim(q.targetUserId);
    if !OwnerLevel(lower, q.actor.role) then Some(NotOwner)
    else if q.actor.id !in s.users then Some(NotFound)
    else
      var current := s.users[q.actor.id];
      if current.accountId != q.actor.accountId || current.accountId == "" then Some(OtherAccount)
      else if !current.active then Some(Inactive)
      else if !OwnerLevel(lower, current.role) then Some(NotOwner)
      else if !q.passwordMatches then Some(WrongPassword)
      else if target == "" then Some(NoTarget)
      else if target == q.actor.id then Some(AlreadyOwner)
      else if target !in s.users then Some(NotFound)
      else if s.users[target].accountId != current.accountId then Some(OtherAccount)
      else if !s.users[target].active then Some(Inactive)
      else if Canonical(lower, s.users[target].role) in {Some("developer"), Some("platform_team")} then Some(PlatformIdentity)
      else if q.emailTaken then Some(EmailTaken)
      else None
  }

  function DisplacedUsers(lower: Lower, s: State, accountId: string, targetId: string): set<string> {
    set u | u in s.users && Displaced(lower, s, accountId, targetId, u)
  }

  function Transfer(lower: Lower, s: State, q: Request, newId: string): (State, Answer) {
    var error := Check(lower, s, q);
    if error.Some? then (s, Err(error.value))
    else
      var accountId, target := s.users[q.actor.id].accountId, Trim(q.targetUserId);
      var displaced := DisplacedUsers(lower, s, accountId, target);
      (RevokeSessions(Promote(Displace(lower, s, accountId, displaced), accountId, target, newId), accountId, displaced + {target}),
       Ok(displaced))
  }

  // ---------------------------------------------------------------- exactly one owner

  /** The account's memberships belong to the account's users. */
  ghost predicate WellFormed(s: State, accountId: string) {
    && (forall k :: k in s.memberships && s.memberships[k].accountId == accountId ==>
          s.memberships[k].userId in s.users && s.users[s.memberships[k].userId].accountId == accountId)
    && (forall j, k :: j in s.memberships && k in s.memberships && SameScope(s.memberships[j], s.memberships[k]) ==> j == k)
  }

  /** Account, user and scope key are unique together. */
  predicate SameScope(m: Membership, n: Membership) {
    m.accountId == n.accountId && m.userId == n.userId && m.scopeKey == n.scopeKey
  }

  /** An active owner-level user of the account. */
  predicate OwnerUser(lower: Lower, s: State, accountId: string, u: string) {
    u in s.users && s.users[u].accountId == accountId && s.users[u].active && OwnerLevel(lower, s.users[u].role)
  }

  /** An active owner-level membership in the account. */
  predicate OwnerMembership(lower: Lower, s: State, accountId: string, k: string) {
    k in s.memberships && s.memberships[k].accountId == accountId && LiveOwner(lower, s.memberships[k])
  }

  lemma TrimmedRole(r: string)
    requires r in APP_ROLES + {"school_admin"}
    ensures Trim(r) == r
  {
    TrimFixes(r);
  }

  /** Demotion leaves no active owner-level user behind. */
  lemma DemotedIsNoOwner(lower: Lower, user: User, roles: set<string>)
    requires KeepsRoleNames(lower)
    ensures var after := Demoted(user, Fallback(lower, roles)); after.active ==> !OwnerLevel(lower, after.role)
  {
    var i := FirstInIsFirst(NON_OWNER_ROLE_PRIORITY, CanonicalRoles(lower, roles));
    var fallback := Fallback(lower, roles);
    if fallback.Some? {
      TrimmedRole(fallback.value);
    }
  }

  lemma OwnerIsOwnerLevel(lower: Lower)
    requires KeepsRoleNames(lower)
    ensures forall r :: r in STORED_OWNER_ROLES ==> OwnerLevel(lower, r)
  {
    forall r | r in STORED_OWNER_ROLES ensures OwnerLevel(lower, r) {
      TrimmedRole(r);
    }
  }

  /** After a transfer the target is the account's one active owner-level user, whatever aliases the
      stored roles use. */
  lemma OneOwnerUser(lower: Lower, s: State, q: Request, newId: string, u: string)
    requires KeepsRoleNames(lower) && Transfer(lower, s, q, newId).1.Ok?
    ensures var after := Transfer(lower, s, q, newId).0;
            OwnerUser(lower, after, s.users[q.actor.id].accountId, u) <==> u == Trim(q.targetUserId)
  {
    var accountId, target := s.users[q.actor.id].accountId, Trim(q.targetUserId);
    OwnerIsOwnerLevel(lower);
    if u in DisplacedUsers(lower, s, accountId, target) {
      DemotedIsNoOwner(lower, s.users[u], RemainingRoles(RevokeOwned(s.memberships, accountId, {u}), accountId, u));
    }
  }

  /** The three stages of a successful transfer. */
  lemma Stages(lower: Lower, s: State, q: Request, newId: string)
    requires Transfer(lower, s, q, newId).1.Ok?
    ensures Check(lower, s, q).None?
    ensures var accountId, target := s.users[q.actor.id].accountId, Trim(q.targetUserId);
            var displaced := DisplacedUsers(lower, s, accountId, target);
            var after := Transfer(lower, s, q, newId).0;
            && after.memberships == Promote(Displace(lower, s, accountId, displaced), accountId, target, newId).memberships
            && after.users == Promote(Displace(lower, s, accountId, displaced), accountId, target, newId).users
            && after.sessions == RevokeSessions(s, accountId, displaced + {target}).sessions
  {
  }

  /** What a membership that existed before the transfer is after it. */
  function After(m: Membership, accountId: string, targetId: string, displaced: set<string>): Membership {
    Settled(if RevokedFor(m, accountId, displaced) then Ended(m) else m, accountId, targetId)
  }

  lemma MembershipAfter(lower: Lower, s: State, q: Request, newId: string, k: string)
    requires Transfer(lower, s, q, newId).1.Ok? && newId !in s.memberships && k in s.memberships
    ensures k in Transfer(lower, s, q, newId).0.memberships
    ensures var accountId, target := s.users[q.actor.id].accountId, Trim(q.targetUserId);
            Transfer(lower, s, q, newId).0.memberships[k] ==
            After(s.memberships[k], accountId, target, DisplacedUsers(lower, s, accountId, target))
  {
    Stages(lower, s, q, newId);
  }

  /** A live owner-level membership under a role name that the revocation does not look for. */
  predicate Alias(lower: Lower, s: State, accountId: string, targetId: string, k: string) {
    OwnerMembership(lower, s, accountId, k) && s.memberships[k].role !in STORED_OWNER_ROLES &&
    !IsOwnerScope(s.memberships[k], accountId, targetId)
  }

  /** Which of the earlier memberships are live at owner level after the transfer. */
  lemma LiveOwnersAfter(lower: Lower, s: State, q: Request, newId: string, k: string)
    requires KeepsRoleNames(lower) && Transfer(lower, s, q, newId).1.Ok? && newId !in s.memberships && k in s.memberships
    requires WellFormed(s, s.users[q.actor.id].accountId)
    ensures var accountId, target := s.users[q.actor.id].accountId, Trim(q.targetUserId);
            OwnerMembership(lower, Transfer(lower, s, q, newId).0, accountId, k) <==>
            IsOwnerScope(s.memberships[k], accountId, target) || Alias(lower, s, accountId, target, k)
  {
    var accountId, target := s.users[q.actor.id].accountId, Trim(q.targetUserId);
    var m := s.memberships[k];
    MembershipAfter(lower, s, q, newId, k);
    OwnerIsOwnerLevel(lower);
    if m.accountId == accountId && m.userId != target && LiveOwner(lower, m) {
      assert Displaced(lower, s, accountId, target, m.userId);
    }
  }

  /** The row that the upsert leaves: the target's scope row, if there was one, else a new one. */
  lemma PromotedRow(s: State, accountId: string, target: string, newId: string) returns (owner: string)
    requires target in s.users && newId !in s.memberships
    ensures var after := Promote(s, accountId, target, newId);
            && owner in after.memberships && IsOwnerScope(after.memberships[owner], accountId, target)
            && Live(after.memberships[owner]) && after.memberships[owner].role == "owner"
            && after.memberships.Keys == s.memberships.Keys + {owner}
    ensures if owner in s.memberships then IsOwnerScope(s.memberships[owner], accountId, target)
            else forall k :: k in s.memberships ==> !IsOwnerScope(s.memberships[k], accountId, target)
  {
    var settled := map k | k in s.memberships :: Settled(s.memberships[k], accountId, target);
    if k :| k in settled && IsOwnerScope(settled[k], accountId, target) {
      owner := k;
    } else {
      owner := newId;
      assert forall k :: k in s.memberships ==> k in settled && !IsOwnerScope(settled[k], accountId, target);
    }
  }

  lemma ScopeRow(lower: Lower, s: State, q: Request, newId: string) returns (owner: string)
    requires Transfer(lower, s, q, newId).1.Ok? && newId !in s.memberships
    ensures var accountId, target := s.users[q.actor.id].accountId, Trim(q.targetUserId);
            var after := Transfer(lower, s, q, newId).0;
            && owner in after.memberships && IsOwnerScope(after.memberships[owner], accountId, target)
            && Live(after.memberships[owner]) && after.memberships[owner].role == "owner"
            && after.memberships.Keys == s.memberships.Keys + {owner}
    ensures var accountId, target := s.users[q.actor.id].accountId, Trim(q.targetUserId);
            if owner in s.memberships then IsOwnerScope(s.memberships[owner], accountId, target)
            else forall k :: k in s.memberships ==> !IsOwnerScope(s.memberships[k], accountId, target)
  {
    Stages(lower, s, q, newId);
    var accountId, target := s.users[q.actor.id].accountId, Trim(q.targetUserId);
    var displaced := Displace(lower, s, accountId, DisplacedUsers(lower, s, accountId, target));
    owner := PromotedRow(displaced, accountId, target, newId);
    forall k | k in s.memberships
      ensures IsOwnerScope(displaced.memberships[k], accountId, target) <==> IsOwnerScope(s.memberships[k], accountId, target)
    {
    }
  }

  /** No other row of the target has the owner's scope key. */
  lemma ScopeIsUnique(s: State, accountId: string, target: string, owner: string, k: string)
    requires WellFormed(s, accountId) && k in s.memberships && k != owner
    requires if owner in s.memberships then IsOwnerScope(s.memberships[owner], accountId, target)
             else forall j :: j in s.memberships ==> !IsOwnerScope(s.memberships[j], accountId, target)
    ensures !IsOwnerScope(s.memberships[k], accountId, target)
  {
    assert owner in s.memberships ==> !SameScope(s.memberships[k], s.memberships[owner]);
  }

  lemma OnlyOneExactlyWithoutAlias(lower: Lower, s: State, after: State, accountId: string, target: string, owner: string)
    requires after.memberships.Keys == s.memberships.Keys + {owner} && OwnerMembership(lower, after, accountId, owner)
    requires owner in s.memberships ==> IsOwnerScope(s.memberships[owner], accountId, target)
    requires forall k :: k in s.memberships && k != owner ==>
               (OwnerMembership(lower, after, accountId, k) <==> Alias(lower, s, accountId, target, k))
    ensures (forall k :: OwnerMembership(lower, after, accountId, k) ==> k == owner) <==>
            (forall k :: !Alias(lower, s, accountId, target, k))
  {
  }

  /** After a transfer the target holds an active owner membership, and it is the only active
      owner-level one in the account exactly when no active membership had its owner-level role
      stored under another name, as canonical role names guarantee. */
  lemma OneOwnerMembership(lower: Lower, s: State, q: Request, newId: string) returns (owner: string)
    requires KeepsRoleNames(lower) && Transfer(lower, s, q, newId).1.Ok? && newId !in s.memberships
    requires WellFormed(s, s.users[q.actor.id].accountId)
    ensures var accountId, target := s.users[q.actor.id].accountId, Trim(q.targetUserId);
            var after := Transfer(lower, s, q, newId).0;
            && OwnerMembership(lower, after, accountId, owner) && after.memberships[owner].userId == target
            && ((forall k :: OwnerMembership(lower, after, accountId, k) ==> k == owner) <==>
                (forall k :: !Alias(lower, s, accountId, target, k)))
  {
    var accountId, target := s.users[q.actor.id].accountId, Trim(q.targetUserId);
    var after := Transfer(lower, s, q, newId).0;
    owner := ScopeRow(lower, s, q, newId);
    OwnerIsOwnerLevel(lower);
    forall k | k in s.memberships && k != owner
      ensures OwnerMembership(lower, after, accountId, k) <==> Alias(lower, s, accountId, target, k)
    {
      LiveOwnersAfter(lower, s, q, newId, k);
      ScopeIsUnique(s, accountId, target, owner, k);
    }
    OnlyOneExactlyWithoutAlias(lower, s, after, accountId, target, owner);
  }

  // ---------------------------------------------------------------- what is kept

  /** Memberships below ownership keep their role and status, the target's owner-scope row aside. */
  lemma LowerMembershipsKept(lower: Lower, s: State, q: Request, newId: string, k: string)
    requires KeepsRoleNames(lower) && Transfer(lower, s, q, newId).1.Ok? && newId !in s.memberships && k in s.memberships
    requires !OwnerLevel(lower, s.memberships[k].role)
    requires !IsOwnerScope(s.memberships[k], s.users[q.actor.id].accountId, Trim(q.targetUserId))
    ensures k in Transfer(lower, s, q, newId).0.memberships
    ensures var after := Transfer(lower, s, q, newId).0.memberships[k];
            after == s.memberships[k].(isDefault := after.isDefault) &&
            (s.memberships[k].userId != Trim(q.targetUserId) ==> after == s.memberships[k])
  {
    MembershipAfter(lower, s, q, newId, k);
    OwnerIsOwnerLevel(lower);
  }

  lemma SameRemaining(a: map<string, Membership>, b: map<string, Membership>, accountId: string, u: string)
    requires forall k :: k in a && a[k].userId == u ==> k in b && b[k] == a[k]
    requires forall k :: k in b && b[k].userId == u ==> k in a && a[k] == b[k]
    ensures RemainingRoles(a, accountId, u) == RemainingRoles(b, accountId, u)
  {
  }

  /** A displaced user's row is only touched by the revocation. */
  lemma DisplacedRow(m: Membership, accountId: string, targetId: string, displaced: set<string>, u: string)
    requires u in displaced && u != targetId
    ensures After(m, accountId, targetId, displaced).userId == m.userId
    ensures m.userId == u ==>
              After(m, accountId, targetId, displaced) == if RevokedFor(m, accountId, {u}) then Ended(m) else m
  {
  }

  lemma DisplacedMembership(lower: Lower, s: State, q: Request, newId: string, u: string, k: string)
    requires Transfer(lower, s, q, newId).1.Ok? && newId !in s.memberships && k in s.memberships
    requires u in DisplacedUsers(lower, s, s.users[q.actor.id].accountId, Trim(q.targetUserId))
    ensures var after := Transfer(lower, s, q, newId).0.memberships;
            k in after && after[k].userId == s.memberships[k].userId &&
            (after[k].userId == u ==> after[k] == RevokeOwned(s.memberships, s.users[q.actor.id].accountId, {u})[k])
  {
    var accountId, target := s.users[q.actor.id].accountId, Trim(q.targetUserId);
    MembershipAfter(lower, s, q, newId, k);
    DisplacedRow(s.memberships[k], accountId, target, DisplacedUsers(lower, s, accountId, target), u);
  }

  lemma RemainingAfter(lower: Lower, s: State, q: Request, newId: string, u: string)
    requires Transfer(lower, s, q, newId).1.Ok? && newId !in s.memberships
    requires u in DisplacedUsers(lower, s, s.users[q.actor.id].accountId, Trim(q.targetUserId))
    ensures var accountId := s.users[q.actor.id].accountId;
            RemainingRoles(Transfer(lower, s, q, newId).0.memberships, accountId, u) ==
            RemainingRoles(RevokeOwned(s.memberships, accountId, {u}), accountId, u)
  {
    var accountId, target := s.users[q.actor.id].accountId, Trim(q.targetUserId);
    var after, alone := Transfer(lower, s, q, newId).0.memberships, RevokeOwned(s.memberships, accountId, {u});
    var owner := ScopeRow(lower, s, q, newId);
    forall k | k in s.memberships
      ensures k in after && after[k].userId == s.memberships[k].userId && (after[k].userId == u ==> after[k] == alone[k])
    {
      DisplacedMembership(lower, s, q, newId, u, k);
    }
    SameRemaining(after, alone, accountId, u);
  }

  /** The roles of the memberships in the account that are still active. */
  function RolesLeft(s: State, accountId: string, u: string): set<string> {
    set k | && k in s.memberships && s.memberships[k].accountId == accountId && s.memberships[k].userId == u
            && s.memberships[k].active && s.memberships[k].status == "active" :: s.memberships[k].role
  }

  /** A displaced owner takes the strongest role among the memberships that remain active after the
      transfer, or is deactivated when none is left; every other user but the target stays as it was. */
  lemma DisplacedOwnerDemoted(lower: Lower, s: State, q: Request, newId: string, u: string)
    requires Transfer(lower, s, q, newId).1.Ok? && newId !in s.memberships && u in s.users && u != Trim(q.targetUserId)
    ensures var accountId := s.users[q.actor.id].accountId;
            var after := Transfer(lower, s, q, newId).0;
            && u in after.users
            && after.users[u] ==
               if u !in Transfer(lower, s, q, newId).1.value then s.users[u]
               else
                 var fallback := Fallback(lower, RolesLeft(after, accountId, u));
                 if fallback.Some? then User(s.users[u].accountId, fallback.value, true)
                 else User(s.users[u].accountId, s.users[u].role, false)
  {
    if u in DisplacedUsers(lower, s, s.users[q.actor.id].accountId, Trim(q.targetUserId)) {
      RemainingAfter(lower, s, q, newId, u);
    }
  }

  /** The account's sessions of the displaced owners and the target end, and no others. */
  lemma SessionsRevoked(lower: Lower, s: State, q: Request, newId: string, k: string)
    requires Transfer(lower, s, q, newId).1.Ok? && k in s.sessions
    ensures var after := Transfer(lower, s, q, newId).0;
            && k in after.sessions
            && after.sessions[k].revoked ==
               (s.sessions[k].revoked ||
                (s.sessions[k].accountId == s.users[q.actor.id].accountId &&
                 (s.sessions[k].userId == Trim(q.targetUserId) || s.sessions[k].userId in Transfer(lower, s, q, newId).1.value)))
  {
  }

  // ---------------------------------------------------------------- who may transfer, and what it does

  /** Exactly when a transfer goes through: an active owner-level user of an account, with the right
      password, names another active user of the account who is no platform identity and whose email
      is free. Otherwise nothing changes. */
  lemma TransferAllowedExactly(lower: Lower, s: State, q: Request, newId: string)
    ensures var target := Trim(q.targetUserId);
            Transfer(lower, s, q, newId).1.Ok? <==>
            && OwnerLevel(lower, q.actor.role) && q.passwordMatches && !q.emailTaken
            && q.actor.id in s.users && s.users[q.actor.id].active && OwnerLevel(lower, s.users[q.actor.id].role)
            && s.users[q.actor.id].accountId == q.actor.accountId != ""
            && target in s.users && target !in {"", q.actor.id} && s.users[target].active
            && s.users[target].accountId == q.actor.accountId
            && Canonical(lower, s.users[target].role) !in {Some("developer"), Some("platform_team")}
    ensures Transfer(lower, s, q, newId).1.Err? ==> Transfer(lower, s, q, newId).0 == s
  {
  }

  /** Exactly who loses ownership: every other user of the account with an owner-level role, or with a
      live owner-level membership. */
  lemma DisplacedExactly(lower: Lower, s: State, q: Request, newId: string, u: string)
    requires Transfer(lower, s, q, newId).1.Ok?
    ensures u in Transfer(lower, s, q, newId).1.value <==>
            && u in s.users && s.users[u].accountId == s.users[q.actor.id].accountId && u != Trim(q.targetUserId)
            && (OwnerLevel(lower, s.users[u].role) ||
                exists k :: && k in s.memberships && s.memberships[k].userId == u && s.memberships[k].active
                            && s.memberships[k].status in {"", "active"} && OwnerLevel(lower, s.memberships[k].role))
  {
  }

  /** Both stored names of ownership end for the displaced users and the target, and only for them. */
  predicate EndsIn(m: Membership, accountId: string, losers: set<string>) {
    m.accountId == accountId && m.userId in losers && m.role in {"owner", "super_admin"} && m.active
  }

  /** What becomes of a membership of anyone but the target. */
  lemma OthersMembership(lower: Lower, s: State, q: Request, newId: string, k: string)
    requires Transfer(lower, s, q, newId).1.Ok? && newId !in s.memberships && k in s.memberships
    requires s.memberships[k].userId != Trim(q.targetUserId) || s.memberships[k].accountId != s.users[q.actor.id].accountId
    ensures var (after, m) := (Transfer(lower, s, q, newId).0.memberships, s.memberships[k]);
            && k in after
            && after[k] == if EndsIn(m, s.users[q.actor.id].accountId, Transfer(lower, s, q, newId).1.value)
                           then Membership(m.accountId, m.userId, m.role, m.scopeKey, false, "revoked", false) else m
  {
    MembershipAfter(lower, s, q, newId, k);
  }

  /** What becomes of the target's memberships in the account: that of the whole account is the
      owner's and the default, the other owner-level ones end, and none of the rest stays the default. */
  lemma TargetMembership(lower: Lower, s: State, q: Request, newId: string, k: string)
    requires Transfer(lower, s, q, newId).1.Ok? && newId !in s.memberships && k in s.memberships
    requires s.memberships[k].userId == Trim(q.targetUserId) && s.memberships[k].accountId == s.users[q.actor.id].accountId
    ensures var (after, m) := (Transfer(lower, s, q, newId).0.memberships, s.memberships[k]);
            && k in after
            && after[k] == if m.scopeKey == "owner|account:" + m.accountId
                           then Membership(m.accountId, m.userId, "owner", m.scopeKey, true, "active", true)
                           else if m.role in {"owner", "super_admin"}
                           then Membership(m.accountId, m.userId, m.role, m.scopeKey, false, "revoked", false)
                           else m.(isDefault := false)
  {
    MembershipAfter(lower, s, q, newId, k);
  }

  /** The target becomes an active owner with a membership for the whole account, the one that it had
      or a new one. */
  lemma TargetPromoted(lower: Lower, s: State, q: Request, newId: string) returns (owner: string)
    requires Transfer(lower, s, q, newId).1.Ok? && newId !in s.memberships
    ensures var accountId, target, after := s.users[q.actor.id].accountId, Trim(q.targetUserId), Transfer(lower, s, q, newId).0;
            && target in after.users && after.users[target] == User(accountId, "owner", true)
            && after.memberships.Keys == s.memberships.Keys + {owner}
            && after.memberships[owner] == Membership(accountId, target, "owner", "owner|account:" + accountId, true, "active", true)
  {
    Stages(lower, s, q, newId);
    owner := ScopeRow(lower, s, q, newId);
    if owner in s.memberships {
      TargetMembership(lower, s, q, newId, owner);
    } else {
      CreatedScopeRow(lower, s, q, newId, owner);
    }
  }

  lemma CreatedScopeRow(lower: Lower, s: State, q: Request, newId: string, owner: string)
    requires Transfer(lower, s, q, newId).1.Ok? && newId !in s.memberships && owner !in s.memberships
    requires owner in Transfer(lower, s, q, newId).0.memberships
    ensures var accountId := s.users[q.actor.id].accountId;
            Transfer(lower, s, q, newId).0.memberships[owner] ==
            Membership(accountId, Trim(q.targetUserId), "owner", "owner|account:" + accountId, true, "active", true)
  {
    Stages(lower, s, q, newId);
  }

  // ---------------------------------------------------------------- the service

  lemma DisplaceOne(lower: Lower, s: State, accountId: string, done: set<string>, u: string)
    requires u !in done && u in s.users
    ensures RemainingRoles(RevokeOwned(s.memberships, accountId, done + {u}), accountId, u) ==
            RemainingRoles(RevokeOwned(s.memberships, accountId, {u}), accountId, u)
    ensures RevokeOwned(Displace(lower, s, accountId, done).memberships, accountId, {u}) ==
            RevokeOwned(s.memberships, accountId, done + {u})
  {
    SameRemaining(RevokeOwned(s.memberships, accountId, done + {u}), RevokeOwned(s.memberships, accountId, {u}), accountId, u);
  }

  function EndOwned(ms: map<string, Membership>, accountId: string, targetId: string): map<string, Membership> {
    map k | k in ms ::
      if ms[k].accountId == accountId && ms[k].userId == targetId && ms[k].role in STORED_OWNER_ROLES then Ended(ms[k]) else ms[k]
  }

  function ClearDefaults(ms: map<string, Membership>, accountId: string, targetId: string): map<string, Membership> {
    map k | k in ms :: if ms[k].accountId == accountId && ms[k].userId == targetId then ms[k].(isDefault := false) else ms[k]
  }

  function WriteScope(ms: map<string, Membership>, accountId: string, targetId: string): map<string, Membership> {
    map k | k in ms ::
      if IsOwnerScope(ms[k], accountId, targetId) then ms[k].(role := "owner", active := true, status := "active", isDefault := true)
      else ms[k]
  }

  /** The two bulk updates and the upsert, one after another, settle a row. */
  lemma RowSettledInSteps(m: Membership, accountId: string, targetId: string)
    ensures var ended := if m.accountId == accountId && m.userId == targetId && m.role in STORED_OWNER_ROLES then Ended(m) else m;
            var cleared := if ended.accountId == accountId && ended.userId == targetId then ended.(isDefault := false) else ended;
            && IsOwnerScope(cleared, accountId, targetId) == IsOwnerScope(m, accountId, targetId) ==
               IsOwnerScope(Settled(m, accountId, targetId), accountId, targetId)
            && Settled(m, accountId, targetId) ==
               if IsOwnerScope(cleared, accountId, targetId)
               then cleared.(role := "owner", active := true, status := "active", isDefault := true) else cleared
  {
  }

  lemma SettledInSteps(ms: map<string, Membership>, accountId: string, targetId: string)
    ensures var settled := map k | k in ms :: Settled(ms[k], accountId, targetId);
            var cleared := ClearDefaults(EndOwned(ms, accountId, targetId), accountId, targetId);
            && WriteScope(cleared, accountId, targetId) == settled
            && ((exists k :: k in cleared && IsOwnerScope(cleared[k], accountId, targetId)) <==>
                (exists k :: k in settled && IsOwnerScope(settled[k], accountId, targetId)))
            && ((forall k :: k in cleared ==> !IsOwnerScope(cleared[k], accountId, targetId)) ==> cleared == settled)
  {
    var settled := map k | k in ms :: Settled(ms[k], accountId, targetId);
    var cleared := ClearDefaults(EndOwned(ms, accountId, targetId), accountId, targetId);
    forall k | k in ms
      ensures IsOwnerScope(cleared[k], accountId, targetId) == IsOwnerScope(settled[k], accountId, targetId)
      ensures WriteScope(cleared, accountId, targetId)[k] == settled[k]
      ensures !IsOwnerScope(cleared[k], accountId, targetId) ==> cleared[k] == settled[k]
    {
      RowSettledInSteps(ms[k], accountId, targetId);
    }
  }

  class AccountsService {
    var users: map<string, User>
    var memberships: map<string, Membership>
    var sessions: map<string, Session>

    function View(): State
      reads this
    {
      State(users, memberships, sessions)
    }

    constructor (s: State)
      ensures View() == s
    {
      users, memberships, sessions := s.users, s.memberships, s.sessions;
    }

    /** Take ownership from one user: memberships first, then the role that is left. */
    method DisplaceUser(lower: Lower, ghost s: State, accountId: string, ghost done: set<string>, u: string)
      requires u in s.users && u !in done && View() == Displace(lower, s, accountId, done)
      modifies `users, `memberships
      ensures View() == Displace(lower, s, accountId, done + {u})
    {
      memberships := RevokeOwned(memberships, accountId, {u});
      DisplaceOne(lower, s, accountId, done, u);
      var fallback := GetHighestRemainingNonOwnerRole(lower, RemainingRoles(memberships, accountId, u));
      users := users[u := Demoted(users[u], fallback)];
    }

    /** The loop over the account's users, in whatever order the database lists them. */
    method DisplaceOwners(lower: Lower, accountId: string, targetId: string, order: seq<string>) returns (displaced: set<string>)
      requires forall u :: u in order <==> u in users && users[u].accountId == accountId
      requires forall i, j :: 0 <= i < j < |order| ==> order[i] != order[j]
      modifies `users, `memberships
      ensures displaced == DisplacedUsers(lower, old(View()), accountId, targetId)
      ensures View() == Displace(lower, old(View()), accountId, displaced)
    {
      var s := View();
      displaced := {};
      for i := 0 to |order|
        invariant displaced == set u | u in order[..i] && Displaced(lower, s, accountId, targetId, u)
        invariant View() == Displace(lower, s, accountId, displaced)
      {
        var u := order[i];
        assert order[..i + 1] == order[..i] + [u];
        if Displaced(lower, s, accountId, targetId, u) {
          assert u !in order[..i];
          DisplaceUser(lower, s, accountId, displaced, u);
          displaced := displaced + {u};
        }
      }
      assert order[..|order|] == order;
    }

    method TransferOwnership(lower: Lower, q: Request, order: seq<string>, newId: string) returns (answer: Answer)
      requires q.actor.id in users ==>
                 forall u :: u in order <==> u in users && users[u].accountId == users[q.actor.id].accountId
      requires forall i, j :: 0 <= i < j < |order| ==> order[i] != order[j]
      modifies this
      ensures (View(), answer) == Transfer(lower, old(View()), q, newId)
    {
      var error := Check(lower, View(), q);
      if error.Some? {
        return Err(error.value);
      }
      var accountId, target := users[q.actor.id].accountId, Trim(q.targetUserId);
      var displaced := DisplaceOwners(lower, accountId, target, order);
      PromoteTarget(accountId, target, newId);
      sessions := RevokeSessions(View(), accountId, displaced + {target}).sessions;
      return Ok(displaced);
    }

    /** The target's own owner-level rows end, its defaults are cleared, and the scope row is upserted. */
    method PromoteTarget(accountId: string, targetId: string, newId: string)
      requires targetId in users
      modifies `users, `memberships
      ensures View() == Promote(old(View()), accountId, targetId, newId)
    {
      SettledInSteps(memberships, accountId, targetId);
      memberships := EndOwned(memberships, accountId, targetId);
      memberships := ClearDefaults(memberships, accountId, targetId);
      if exists k :: k in memberships && IsOwnerScope(memberships[k], accountId, targetId) {
        memberships := WriteScope(memberships, accountId, targetId);
      } else {
        memberships := memberships[newId := Membership(accountId, targetId, "owner", OwnerScopeKey(accountId), true, "active", true)];
      }
      users := users[targetId := users[targetId].(role := "owner", active := true)];
    }
  }
}
