/** Accounts, boards, memberships and invitations: what each account operation does to the tables. */
module Accounts {
  import opened Wrappers

  type Id = string

  datatype Role = Viewer | Editor | Owner

  function Rank(r: Role): nat {
    match r case Viewer => 1 case Editor => 2 case Owner => 3
  }

  datatype User = User(login: string, isAdmin: bool, disabled: bool)

  datatype Board = Board(ownerUserId: Id, deleted: bool)

  /** An invitation to the service, or to a board in a role. */
  datatype Invitation = Invitation(createdBy: Id, boardId: Option<Id>, role: Option<Role>, invitedLogin: Option<string>, expiresAt: int,
                                   consumedAt: Option<int>, consumedBy: Option<Id>, revokedAt: Option<int>)

  /** What the account tables hold: memberships are keyed by board and user, invitations by the hash of their token. */
  datatype Registry = Registry(users: map<Id, User>, boards: map<Id, Board>, members: map<(Id, Id), Role>, invitations: map<string, Invitation>)

  const EMPTY_REGISTRY := Registry(map[], map[], map[], map[])

  datatype Refusal = BootstrapComplete | LoginTaken | InvalidInvitation | InvitationRequired | UserNotFound | AccountDisabled
                   | BoardExists | BoardNotFound | Forbidden | InvalidInput | Conflict

  datatype Outcome = Done(registry: Registry) | Refused(why: Refusal)

  const MAX_ADOPTED: nat := 1000

  /* ----------------------------------------------------------------------- checks */

  function NotActive(t: Registry, userId: Id): Option<Refusal> {
    if userId !in t.users then Some(UserNotFound) else if t.users[userId].disabled then Some(AccountDisabled) else None
  }

  function RoleOf(t: Registry, boardId: Id, userId: Id): Option<Role> {
    if (boardId, userId) in t.members then Some(t.members[(boardId, userId)]) else None
  }

  /** Why the user may not act on the board as a member of it. */
  function NotMember(t: Registry, userId: Id, boardId: Id, includeDeleted: bool): Option<Refusal> {
    if NotActive(t, userId).Some? then NotActive(t, userId)
    else if boardId !in t.boards || RoleOf(t, boardId, userId).None? || (!includeDeleted && t.boards[boardId].deleted) then Some(BoardNotFound)
    else None
  }

  function NotOwner(t: Registry, userId: Id, boardId: Id, includeDeleted: bool): Option<Refusal> {
    var missing := NotMember(t, userId, boardId, includeDeleted);
    if missing.Some? then missing else if RoleOf(t, boardId, userId) != Some(Owner) then Some(Forbidden) else None
  }

  function LoginHolder(t: Registry, login: string): bool {
    exists u :: u in t.users && t.users[u].login == login
  }

  predicate Usable(t: Registry, inv: Invitation, login: string, at: int) {
    && inv.consumedAt.None? && inv.revokedAt.None? && inv.expiresAt > at && (inv.invitedLogin.Some? ==> inv.invitedLogin.value == login)
    && (inv.boardId.Some? ==> inv.boardId.value in t.boards && !t.boards[inv.boardId.value].deleted)
  }

  /* ------------------------------------------------------------------- table updates */

  function PutMember(t: Registry, boardId: Id, userId: Id, role: Role): Registry {
    t.(members := t.members[(boardId, userId) := role])
  }

  /** A role is only ever raised by an invitation. */
  function ApplyMembership(t: Registry, inv: Invitation, userId: Id): Registry {
    if inv.boardId.None? || inv.role.None? then t
    else
      var existing := RoleOf(t, inv.boardId.value, userId);
      if existing.Some? && Rank(existing.value) >= Rank(inv.role.value) then t
      else PutMember(t, inv.boardId.value, userId, inv.role.value)
  }

  function Consumed(inv: Invitation, userId: Id, at: int): Invitation {
    inv.(consumedAt := Some(at), consumedBy := Some(userId))
  }

  /** Marks the invitation used and gives the user what it grants. */
  function Redeem(t: Registry, token: string, userId: Id, at: int): Registry
    requires token in t.invitations
  {
    var inv := t.invitations[token];
    ApplyMembership(t.(invitations := t.invitations[token := Consumed(inv, userId, at)]), inv, userId)
  }

  function AddBoard(t: Registry, boardId: Id, ownerId: Id): Registry {
    PutMember(t.(boards := t.boards[boardId := Board(ownerId, false)]), boardId, ownerId, Owner)
  }

  /* ---------------------------------------------------------------------- operations */

  datatype Settings = Settings(allowOpenRegistration: bool)

  function Register(t: Registry, s: Settings, bootstrapOnly: bool, userId: Id, login: string, token: Option<string>, at: int): Outcome {
    if bootstrapOnly && |t.users| != 0 then Refused(BootstrapComplete)
    else if LoginHolder(t, login) then Refused(LoginTaken)
    else if token.Some? && token.value !in t.invitations then Refused(InvalidInvitation)
    else if |t.users| > 0 && !s.allowOpenRegistration && token.None? then Refused(InvitationRequired)
    else if token.Some? && !Usable(t, t.invitations[token.value], login, at) then Refused(InvalidInvitation)
    else if userId in t.users then Refused(Conflict)
    else
      var t1 := t.(users := t.users[userId := User(login, |t.users| == 0, false)]);
      Done(if token.None? then t1 else Redeem(t1, token.value, userId, at))
  }

  function CreateBoard(t: Registry, userId: Id, boardId: Id): Outcome {
    if NotActive(t, userId).Some? then Refused(NotActive(t, userId).value)
    else if boardId in t.boards then Refused(BoardExists)
    else Done(AddBoard(t, boardId, userId))
  }

  function Adopted(t: Registry, ownerId: Id, ids: seq<Id>): Registry
    decreases |ids|
  {
    if ids == [] then t
    else
      var front := Adopted(t, ownerId, ids[..|ids| - 1]);
      var id := ids[|ids| - 1];
      if id in front.boards then front else AddBoard(front, id, ownerId)
  }

  function AdoptLegacyBoards(t: Registry, ownerId: Id, ids: seq<Id>): Outcome {
    if NotActive(t, ownerId).Some? then Refused(NotActive(t, ownerId).value)
    else if !t.users[ownerId].isAdmin then Refused(Forbidden)
    else if |ids| > MAX_ADOPTED then Refused(InvalidInput)
    else Done(Adopted(t, ownerId, ids))
  }

  function SetBoardDeleted(t: Registry, userId: Id, boardId: Id, deleted: bool): Outcome {
    var no := NotOwner(t, userId, boardId, true);
    if no.Some? then Refused(no.value)
    else Done(t.(boards := t.boards[boardId := t.boards[boardId].(deleted := deleted)]))
  }

  function SetMemberRole(t: Registry, actorId: Id, boardId: Id, targetId: Id, role: Option<Role>): Outcome {
    var no := NotOwner(t, actorId, boardId, false);
    if no.Some? then Refused(no.value)
    else if targetId == t.boards[boardId].ownerUserId then Refused(Forbidden)
    else if NotActive(t, targetId).Some? then Refused(NotActive(t, targetId).value)
    else if role == Some(Owner) then Refused(InvalidInput)
    else if role.None? then Done(t.(members := t.members - {(boardId, targetId)}))
    else Done(PutMember(t, boardId, targetId, role.value))
  }

  function CreateInvitation(t: Registry, actorId: Id, token: string, boardId: Option<Id>, role: Option<Role>, invitedLogin: Option<string>, expiresAt: int): Outcome {
    if NotActive(t, actorId).Some? then Refused(NotActive(t, actorId).value)
    else if role == Some(Owner) || (boardId.None? && role.Some?) then Refused(InvalidInput)
    else if boardId.Some? && NotOwner(t, actorId, boardId.value, false).Some? then Refused(NotOwner(t, actorId, boardId.value, false).value)
    else if boardId.None? && !t.users[actorId].isAdmin then Refused(Forbidden)
    else if token in t.invitations then Refused(Conflict)
    else
      var granted := if boardId.None? then None else if role.None? then Some(Viewer) else role;
      Done(t.(invitations := t.invitations[token := Invitation(actorId, boardId, granted, invitedLogin, expiresAt, None, None, None)]))
  }

  function ConsumeInvitation(t: Registry, userId: Id, token: string, at: int): Outcome {
    if NotActive(t, userId).Some? then Refused(NotActive(t, userId).value)
    else if token !in t.invitations || !Usable(t, t.invitations[token], t.users[userId].login, at) then Refused(InvalidInvitation)
    else Done(Redeem(t, token, userId, at))
  }

  /** Refusing to revoke what is used, revoked or unknown is not an error: nothing happens. */
  function RevokeInvitation(t: Registry, actorId: Id, token: string, at: int): Outcome {
    if NotActive(t, actorId).Some? then Refused(NotActive(t, actorId).value)
    else if token !in t.invitations || t.invitations[token].consumedAt.Some? || t.invitations[token].revokedAt.Some? then Done(t)
    else if t.invitations[token].createdBy != actorId && !t.users[actorId].isAdmin then Refused(Forbidden)
    else Done(t.(invitations := t.invitations[token := t.invitations[token].(revokedAt := Some(at))]))
  }

  function SetUserDisabled(t: Registry, actorId: Id, targetId: Id, disabled: bool): Outcome {
    if NotActive(t, actorId).Some? then Refused(NotActive(t, actorId).value)
    else if !t.users[actorId].isAdmin || (actorId == targetId && disabled) then Refused(Forbidden)
    else if targetId !in t.users then Refused(UserNotFound)
    else Done(t.(users := t.users[targetId := t.users[targetId].(disabled := disabled)]))
  }

  /* ------------------------------------------------------------------------------ runs */

  datatype Command =
    | DoRegister(bootstrapOnly: bool, userId: Id, login: string, token: Option<string>, at: int)
    | DoCreateBoard(actorId: Id, boardId: Id)
    | DoAdopt(actorId: Id, ids: seq<Id>)
    | DoSetDeleted(actorId: Id, boardId: Id, deleted: bool)
    | DoSetRole(actorId: Id, boardId: Id, targetId: Id, role: Option<Role>)
    | DoInvite(actorId: Id, newToken: string, invitedTo: Option<Id>, invitedAs: Option<Role>, invitedLogin: Option<string>, expiresAt: int)
    | DoConsume(actorId: Id, usedToken: string, at: int)
    | DoRevoke(actorId: Id, usedToken: string, at: int)
    | DoSetDisabled(actorId: Id, targetId: Id, disabled: bool)

  function Perform(t: Registry, s: Settings, c: Command): Outcome {
    match c
    case DoRegister(bootstrapOnly, userId, login, token, at) => Register(t, s, bootstrapOnly, userId, login, token, at)
    case DoCreateBoard(actorId, boardId) => CreateBoard(t, actorId, boardId)
    case DoAdopt(actorId, ids) => AdoptLegacyBoards(t, actorId, ids)
    case DoSetDeleted(actorId, boardId, deleted) => SetBoardDeleted(t, actorId, boardId, deleted)
    case DoSetRole(actorId, boardId, targetId, role) => SetMemberRole(t, actorId, boardId, targetId, role)
    case DoInvite(actorId, token, boardId, role, login, expiresAt) => CreateInvitation(t, actorId, token, boardId, role, login, expiresAt)
    case DoConsume(actorId, token, at) => ConsumeInvitation(t, actorId, token, at)
    case DoRevoke(actorId, token, at) => RevokeInvitation(t, actorId, token, at)
    case DoSetDisabled(actorId, targetId, disabled) => SetUserDisabled(t, actorId, targetId, disabled)
  }

  /** A refused operation is rolled back. */
  function After(t: Registry, o: Outcome): Registry {
    match o case Done(t') => t' case Refused(_) => t
  }

  function Next(t: Registry, s: Settings, c: Command): Registry {
    After(t, Perform(t, s, c))
  }

  function Run(t: Registry, s: Settings, commands: seq<Command>): Registry
    decreases |commands|
  {
    if commands == [] then t else Next(Run(t, s, commands[..|commands| - 1]), s, commands[|commands| - 1])
  }

  /* ------------------------------------------------------------------------- invariants */

  /** Memberships join known users to known boards. */
  ghost predicate Joined(t: Registry) {
    && (forall m :: m in t.members ==> m.0 in t.boards && m.1 in t.users)
    && (forall b :: b in t.boards ==> t.boards[b].ownerUserId in t.users)
  }

  /** Each board has exactly one owner membership, and it is the owner's. */
  ghost predicate OneOwner(t: Registry) {
    && (forall b :: b in t.boards ==> RoleOf(t, b, t.boards[b].ownerUserId) == Some(Owner))
    && (forall b, u :: b in t.boards && RoleOf(t, b, u) == Some(Owner) ==> u == t.boards[b].ownerUserId)
  }

  /** There is an administrator as soon as there is anyone, and never a second one. */
  ghost predicate OneAdmin(t: Registry) {
    && (t.users.Keys != {} ==> exists u :: u in t.users && t.users[u].isAdmin)
    && (forall u, v :: u in t.users && v in t.users && t.users[u].isAdmin && t.users[v].isAdmin ==> u == v)
    && (forall u :: u in t.users && t.users[u].isAdmin ==> !t.users[u].disabled)
  }

  ghost predicate LoginsDiffer(t: Registry) {
    forall u, v :: u in t.users && v in t.users && t.users[u].login == t.users[v].login ==> u == v
  }

  /** Never both used and revoked; a board invitation grants less than ownership and comes from the board's owner. */
  ghost predicate SoundInvitation(t: Registry, inv: Invitation) {
    && !(inv.consumedAt.Some? && inv.revokedAt.Some?)
    && (inv.consumedAt.Some? <==> inv.consumedBy.Some?)
    && (inv.boardId.Some? <==> inv.role.Some?) && inv.role != Some(Owner)
    && (inv.boardId.Some? ==> inv.boardId.value in t.boards && t.boards[inv.boardId.value].ownerUserId == inv.createdBy)
  }

  ghost predicate SoundInvitations(t: Registry) {
    forall k :: k in t.invitations ==> SoundInvitation(t, t.invitations[k])
  }

  ghost predicate Sound(t: Registry) {
    match t
    case Registry(_, _, _, _) => Joined(t) && OneOwner(t) && OneAdmin(t) && LoginsDiffer(t) && SoundInvitations(t)
  }

  ghost predicate SameOwners(t: Registry, t': Registry) {
    t'.boards.Keys == t.boards.Keys && forall b :: b in t.boards ==> t'.boards[b].ownerUserId == t.boards[b].ownerUserId
  }

  lemma MembersKept(t: Registry, t': Registry)
    requires Joined(t) && OneOwner(t) && t'.members == t.members && SameOwners(t, t') && t.users.Keys <= t'.users.Keys
    ensures Joined(t') && OneOwner(t')
  {
    forall b, u
      ensures RoleOf(t', b, u) == RoleOf(t, b, u)
    {
    }
  }

  ghost predicate SamePeople(t: Registry, t': Registry) {
    t'.users.Keys == t.users.Keys && forall u :: u in t.users ==> SamePerson(t.users[u], t'.users[u])
  }

  ghost predicate SamePerson(u: User, u': User) {
    u'.login == u.login && u'.isAdmin == u.isAdmin && (u.isAdmin ==> u'.disabled == u.disabled)
  }

  lemma PeopleKept(t: Registry, t': Registry)
    requires OneAdmin(t) && LoginsDiffer(t) && SamePeople(t, t')
    ensures OneAdmin(t') && LoginsDiffer(t')
  {
    if t.users.Keys != {} {
      var admin :| admin in t.users && t.users[admin].isAdmin;
      assert SamePerson(t.users[admin], t'.users[admin]);
    }
  }

  lemma BoardsOnlyGrow(t: Registry, t': Registry)
    requires SoundInvitations(t) && t'.invitations == t.invitations
    requires forall b :: b in t.boards ==> b in t'.boards && t'.boards[b].ownerUserId == t.boards[b].ownerUserId
    ensures SoundInvitations(t')
  {
    forall k | k in t'.invitations
      ensures SoundInvitation(t', t'.invitations[k])
    {
      assert SoundInvitation(t, t.invitations[k]);
    }
  }

  lemma InvitationsMarked(t: Registry, t': Registry, token: string)
    requires SoundInvitations(t) && token in t'.invitations && SoundInvitation(t', t'.invitations[token])
    requires forall k :: k in t'.invitations && k != token ==> k in t.invitations && t'.invitations[k] == t.invitations[k]
    requires t'.boards == t.boards
    ensures SoundInvitations(t')
  {
    forall k | k in t'.invitations && k != token
      ensures SoundInvitation(t', t'.invitations[k])
    {
      assert SoundInvitation(t, t.invitations[k]);
    }
  }

  lemma MemberPut(t: Registry, boardId: Id, userId: Id, role: Role)
    requires Joined(t) && OneOwner(t) && boardId in t.boards && userId in t.users && role != Owner && userId != t.boards[boardId].ownerUserId
    ensures Joined(PutMember(t, boardId, userId, role)) && OneOwner(PutMember(t, boardId, userId, role))
  {
    var t' := PutMember(t, boardId, userId, role);
    forall b, u
      ensures RoleOf(t', b, u) == if b == boardId && u == userId then Some(role) else RoleOf(t, b, u)
    {
    }
  }

  lemma ConsumingKeepsSound(t: Registry, token: string, userId: Id, at: int)
    requires Sound(t) && token in t.invitations && t.invitations[token].revokedAt.None?
    ensures Sound(t.(invitations := t.invitations[token := Consumed(t.invitations[token], userId, at)]))
  {
    var t1 := t.(invitations := t.invitations[token := Consumed(t.invitations[token], userId, at)]);
    assert SoundInvitation(t, t.invitations[token]);
    assert SoundInvitation(t1, t1.invitations[token]);
    InvitationsMarked(t, t1, token);
    MembersKept(t, t1);
    PeopleKept(t, t1);
  }

  lemma MembershipKeepsSound(t: Registry, inv: Invitation, userId: Id)
    requires Sound(t) && SoundInvitation(t, inv) && userId in t.users
    ensures Sound(ApplyMembership(t, inv, userId))
  {
    var t' := ApplyMembership(t, inv, userId);
    if t' != t {
      MemberPut(t, inv.boardId.value, userId, inv.role.value);
      BoardsOnlyGrow(t, t');
      PeopleKept(t, t');
    }
  }

  lemma RedeemKeepsSound(t: Registry, token: string, userId: Id, at: int)
    requires Sound(t) && token in t.invitations && userId in t.users
    requires t.invitations[token].consumedAt.None? && t.invitations[token].revokedAt.None?
    ensures Sound(Redeem(t, token, userId, at))
  {
    var inv := t.invitations[token];
    var t1 := t.(invitations := t.invitations[token := Consumed(inv, userId, at)]);
    ConsumingKeepsSound(t, token, userId, at);
    assert SoundInvitation(t, inv);
    assert SoundInvitation(t1, inv);
    MembershipKeepsSound(t1, inv, userId);
  }

  lemma BoardPut(t: Registry, boardId: Id, ownerId: Id)
    requires Joined(t) && OneOwner(t) && boardId !in t.boards && ownerId in t.users
    ensures Joined(AddBoard(t, boardId, ownerId)) && OneOwner(AddBoard(t, boardId, ownerId))
  {
    var t' := AddBoard(t, boardId, ownerId);
    forall b, u
      ensures RoleOf(t', b, u) == if b == boardId && u == ownerId then Some(Owner) else RoleOf(t, b, u)
    {
    }
  }

  lemma AddBoardKeepsSound(t: Registry, boardId: Id, ownerId: Id)
    requires Sound(t) && boardId !in t.boards && ownerId in t.users
    ensures Sound(AddBoard(t, boardId, ownerId))
  {
    var t' := AddBoard(t, boardId, ownerId);
    BoardPut(t, boardId, ownerId);
    BoardsOnlyGrow(t, t');
    PeopleKept(t, t');
  }

  lemma {:induction false} AdoptedKeepsSound(t: Registry, ownerId: Id, ids: seq<Id>)
    requires Sound(t) && ownerId in t.users
    ensures Sound(Adopted(t, ownerId, ids)) && Adopted(t, ownerId, ids).users == t.users
    decreases |ids|
  {
    if ids != [] {
      var front := Adopted(t, ownerId, ids[..|ids| - 1]);
      AdoptedKeepsSound(t, ownerId, ids[..|ids| - 1]);
      if ids[|ids| - 1] !in front.boards {
        AddBoardKeepsSound(front, ids[|ids| - 1], ownerId);
      }
    }
  }

  lemma NewUserKeepsPeople(t: Registry, t': Registry, userId: Id, login: string)
    requires OneAdmin(t) && LoginsDiffer(t) && userId !in t.users && !LoginHolder(t, login)
    requires t'.users == t.users[userId := User(login, |t.users| == 0, false)]
    ensures OneAdmin(t') && LoginsDiffer(t')
  {
    assert |t.users| == |t.users.Keys|;
    if t.users.Keys == {} {
      assert t'.users[userId].isAdmin;
    } else {
      var admin :| admin in t.users && t.users[admin].isAdmin;
      assert t'.users[admin].isAdmin;
    }
  }

  lemma NewUserKeepsSound(t: Registry, userId: Id, login: string)
    requires Sound(t) && userId !in t.users && !LoginHolder(t, login)
    ensures Sound(t.(users := t.users[userId := User(login, |t.users| == 0, false)]))
  {
    var t' := t.(users := t.users[userId := User(login, |t.users| == 0, false)]);
    NewUserKeepsPeople(t, t', userId, login);
    BoardsOnlyGrow(t, t');
    MembersKept(t, t');
  }

  lemma RegisterKeepsSound(t: Registry, s: Settings, bootstrapOnly: bool, userId: Id, login: string, token: Option<string>, at: int)
    requires Sound(t)
    ensures Sound(After(t, Register(t, s, bootstrapOnly, userId, login, token, at)))
  {
    if Register(t, s, bootstrapOnly, userId, login, token, at).Done? {
      NewUserKeepsSound(t, userId, login);
      if token.Some? {
        RedeemKeepsSound(t.(users := t.users[userId := User(login, |t.users| == 0, false)]), token.value, userId, at);
      }
    }
  }

  lemma SetDeletedKeepsSound(t: Registry, userId: Id, boardId: Id, deleted: bool)
    requires Sound(t)
    ensures Sound(After(t, SetBoardDeleted(t, userId, boardId, deleted)))
  {
    if SetBoardDeleted(t, userId, boardId, deleted).Done? {
      var t' := After(t, SetBoardDeleted(t, userId, boardId, deleted));
      BoardsOnlyGrow(t, t');
      MembersKept(t, t');
      PeopleKept(t, t');
    }
  }

  lemma MemberRemoved(t: Registry, boardId: Id, userId: Id)
    requires Joined(t) && OneOwner(t) && boardId in t.boards && userId != t.boards[boardId].ownerUserId
    ensures var t' := t.(members := t.members - {(boardId, userId)}); Joined(t') && OneOwner(t')
  {
    var t' := t.(members := t.members - {(boardId, userId)});
    forall b, u
      ensures RoleOf(t', b, u) == if b == boardId && u == userId then None else RoleOf(t, b, u)
    {
    }
  }

  lemma SetRoleKeepsSound(t: Registry, actorId: Id, boardId: Id, targetId: Id, role: Option<Role>)
    requires Sound(t)
    ensures Sound(After(t, SetMemberRole(t, actorId, boardId, targetId, role)))
  {
    if SetMemberRole(t, actorId, boardId, targetId, role).Done? {
      var t' := After(t, SetMemberRole(t, actorId, boardId, targetId, role));
      BoardsOnlyGrow(t, t');
      PeopleKept(t, t');
      if role.Some? {
        MemberPut(t, boardId, targetId, role.value);
      } else {
        MemberRemoved(t, boardId, targetId);
      }
    }
  }

  lemma InviteKeepsSound(t: Registry, actorId: Id, token: string, boardId: Option<Id>, role: Option<Role>, login: Option<string>, expiresAt: int)
    requires Sound(t)
    ensures Sound(After(t, CreateInvitation(t, actorId, token, boardId, role, login, expiresAt)))
  {
    if CreateInvitation(t, actorId, token, boardId, role, login, expiresAt).Done? {
      var t' := After(t, CreateInvitation(t, actorId, token, boardId, role, login, expiresAt));
      assert SoundInvitation(t', t'.invitations[token]);
      InvitationsMarked(t, t', token);
      MembersKept(t, t');
      PeopleKept(t, t');
    }
  }

  lemma RevokeKeepsSound(t: Registry, actorId: Id, token: string, at: int)
    requires Sound(t)
    ensures Sound(After(t, RevokeInvitation(t, actorId, token, at)))
  {
    var t' := After(t, RevokeInvitation(t, actorId, token, at));
    if t' != t {
      assert SoundInvitation(t, t.invitations[token]);
      assert SoundInvitation(t', t'.invitations[token]);
      InvitationsMarked(t, t', token);
      MembersKept(t, t');
      PeopleKept(t, t');
    }
  }

  lemma SetDisabledKeepsSound(t: Registry, actorId: Id, targetId: Id, disabled: bool)
    requires Sound(t)
    ensures Sound(After(t, SetUserDisabled(t, actorId, targetId, disabled)))
  {
    if SetUserDisabled(t, actorId, targetId, disabled).Done? {
      var t' := After(t, SetUserDisabled(t, actorId, targetId, disabled));
      BoardsOnlyGrow(t, t');
      MembersKept(t, t');
      PeopleKept(t, t');
    }
  }

  lemma CreateBoardKeepsSound(t: Registry, userId: Id, boardId: Id)
    requires Sound(t)
    ensures Sound(After(t, CreateBoard(t, userId, boardId)))
  {
    if CreateBoard(t, userId, boardId).Done? {
      AddBoardKeepsSound(t, boardId, userId);
    }
  }

  lemma AdoptKeepsSound(t: Registry, ownerId: Id, ids: seq<Id>)
    requires Sound(t)
    ensures Sound(After(t, AdoptLegacyBoards(t, ownerId, ids)))
  {
    if AdoptLegacyBoards(t, ownerId, ids).Done? {
      AdoptedKeepsSound(t, ownerId, ids);
    }
  }

  lemma ConsumeKeepsSound(t: Registry, userId: Id, token: string, at: int)
    requires Sound(t)
    ensures Sound(After(t, ConsumeInvitation(t, userId, token, at)))
  {
    if ConsumeInvitation(t, userId, token, at).Done? {
      RedeemKeepsSound(t, token, userId, at);
    }
  }

  lemma StepKeepsSound(t: Registry, s: Settings, c: Command)
    requires Sound(t)
    ensures Sound(Next(t, s, c))
  {
    match c
    case DoRegister(bootstrapOnly, userId, login, token, at) => RegisterKeepsSound(t, s, bootstrapOnly, userId, login, token, at);
    case DoCreateBoard(actorId, boardId) => CreateBoardKeepsSound(t, actorId, boardId);
    case DoAdopt(actorId, ids) => AdoptKeepsSound(t, actorId, ids);
    case DoSetDeleted(actorId, boardId, deleted) => SetDeletedKeepsSound(t, actorId, boardId, deleted);
    case DoSetRole(actorId, boardId, targetId, role) => SetRoleKeepsSound(t, actorId, boardId, targetId, role);
    case DoInvite(actorId, token, boardId, role, login, expiresAt) => InviteKeepsSound(t, actorId, token, boardId, role, login, expiresAt);
    case DoConsume(actorId, token, at) => ConsumeKeepsSound(t, actorId, token, at);
    case DoRevoke(actorId, token, at) => RevokeKeepsSound(t, actorId, token, at);
    case DoSetDisabled(actorId, targetId, disabled) => SetDisabledKeepsSound(t, actorId, targetId, disabled);
  }

  /** In every run of account operations, from an empty service on, the registry is sound. */
  lemma {:induction false} EveryRunIsSound(s: Settings, commands: seq<Command>)
    ensures Sound(Run(EMPTY_REGISTRY, s, commands))
    decreases |commands|
  {
    if commands != [] {
      EveryRunIsSound(s, commands[..|commands| - 1]);
      StepKeepsSound(Run(EMPTY_REGISTRY, s, commands[..|commands| - 1]), s, commands[|commands| - 1]);
    }
  }

  /* ------------------------------------------------------- what a run can and cannot do */

  /** An invitation once used or revoked is settled for good; until then only those two things can happen to it. */
  ghost predicate Settles(inv: Invitation, inv': Invitation) {
    && inv' == inv.(consumedAt := inv'.consumedAt, consumedBy := inv'.consumedBy, revokedAt := inv'.revokedAt)
    && (inv.consumedAt.Some? || inv.revokedAt.Some? ==> inv' == inv)
  }

  /** Nobody and nothing disappears, boards keep their owners, and invitations settle. */
  ghost predicate Evolves(t: Registry, t': Registry) {
    match t
    case Registry(users, boards, _, invitations) =>
      && (forall u :: u in users ==> u in t'.users && t'.users[u].isAdmin == users[u].isAdmin && t'.users[u].login == users[u].login)
      && (forall b :: b in boards ==> b in t'.boards && t'.boards[b].ownerUserId == boards[b].ownerUserId)
      && (forall k :: k in invitations ==> k in t'.invitations && Settles(invitations[k], t'.invitations[k]))
  }

  lemma EvolvesTransitive(t: Registry, t1: Registry, t2: Registry)
    requires Evolves(t, t1) && Evolves(t1, t2)
    ensures Evolves(t, t2)
  {
    forall k | k in t.invitations
      ensures k in t2.invitations && Settles(t.invitations[k], t2.invitations[k])
    {
      assert Settles(t.invitations[k], t1.invitations[k]) && Settles(t1.invitations[k], t2.invitations[k]);
    }
  }

  lemma {:induction false} AdoptedEvolves(t: Registry, ownerId: Id, ids: seq<Id>)
    ensures Evolves(t, Adopted(t, ownerId, ids)) && Adopted(t, ownerId, ids).invitations == t.invitations
    ensures forall b, u :: RoleOf(Adopted(t, ownerId, ids), b, u) != RoleOf(t, b, u) ==> u == ownerId && b !in t.boards
    decreases |ids|
  {
    if ids != [] {
      AdoptedEvolves(t, ownerId, ids[..|ids| - 1]);
      var front := Adopted(t, ownerId, ids[..|ids| - 1]);
      EvolvesTransitive(t, front, Adopted(t, ownerId, ids));
    }
  }

  lemma RedeemEvolves(t: Registry, token: string, userId: Id, at: int)
    requires token in t.invitations && t.invitations[token].consumedAt.None? && t.invitations[token].revokedAt.None?
    ensures Evolves(t, Redeem(t, token, userId, at))
  {
  }

  lemma RegisterEvolves(t: Registry, s: Settings, bootstrapOnly: bool, userId: Id, login: string, token: Option<string>, at: int)
    ensures Evolves(t, After(t, Register(t, s, bootstrapOnly, userId, login, token, at)))
  {
    if Register(t, s, bootstrapOnly, userId, login, token, at).Done? {
      var t1 := t.(users := t.users[userId := User(login, |t.users| == 0, false)]);
      assert Evolves(t, t1);
      if token.Some? {
        RedeemEvolves(t1, token.value, userId, at);
        EvolvesTransitive(t, t1, Redeem(t1, token.value, userId, at));
      }
    }
  }

  lemma MembershipStepEvolves(t: Registry, s: Settings, c: Command)
    requires c.DoCreateBoard? || c.DoSetDeleted? || c.DoSetRole? || c.DoSetDisabled?
    ensures Evolves(t, Next(t, s, c))
  {
    assert Next(t, s, c).invitations == t.invitations;
  }

  lemma InvitationStepEvolves(t: Registry, s: Settings, c: Command)
    requires c.DoInvite? || c.DoRevoke?
    ensures Evolves(t, Next(t, s, c))
  {
    assert Next(t, s, c).users == t.users && Next(t, s, c).boards == t.boards;
  }

  lemma StepEvolves(t: Registry, s: Settings, c: Command)
    ensures Evolves(t, Next(t, s, c))
  {
    match c
    case DoRegister(bootstrapOnly, userId, login, token, at) => RegisterEvolves(t, s, bootstrapOnly, userId, login, token, at);
    case DoAdopt(actorId, ids) => AdoptedEvolves(t, actorId, ids);
    case DoConsume(actorId, token, at) =>
      if ConsumeInvitation(t, actorId, token, at).Done? { RedeemEvolves(t, token, actorId, at); }
    case DoInvite(_, _, _, _, _, _) => InvitationStepEvolves(t, s, c);
    case DoRevoke(_, _, _) => InvitationStepEvolves(t, s, c);
    case _ => MembershipStepEvolves(t, s, c);
  }

  /** Across any run: an invitation is used at most once, by one person, and never both used and revoked; ownership never moves. */
  lemma {:induction false} RunsEvolve(t: Registry, s: Settings, commands: seq<Command>)
    ensures Evolves(t, Run(t, s, commands))
    decreases |commands|
  {
    if commands != [] {
      var before := Run(t, s, commands[..|commands| - 1]);
      RunsEvolve(t, s, commands[..|commands| - 1]);
      StepEvolves(before, s, commands[|commands| - 1]);
      EvolvesTransitive(t, before, Run(t, s, commands));
    }
  }

  function Actor(c: Command): Id {
    match c
    case DoRegister(_, userId, _, _, _) => userId
    case DoCreateBoard(actorId, _) => actorId
    case DoAdopt(actorId, _) => actorId
    case DoSetDeleted(actorId, _, _) => actorId
    case DoSetRole(actorId, _, _, _) => actorId
    case DoInvite(actorId, _, _, _, _, _) => actorId
    case DoConsume(actorId, _, _) => actorId
    case DoRevoke(actorId, _, _) => actorId
    case DoSetDisabled(actorId, _, _) => actorId
  }

  /** The owner's open invitation to the board, in a role above the one the user had. */
  ghost predicate Invites(t: Registry, inv: Invitation, boardId: Id, before: Option<Role>, after: Option<Role>) {
    && boardId in t.boards && inv.createdBy == t.boards[boardId].ownerUserId && inv.consumedAt.None? && inv.revokedAt.None?
    && inv.boardId == Some(boardId) && inv.role == after && after.Some? && after != Some(Owner)
    && (before.Some? ==> Rank(before.value) < Rank(after.value))
  }

  ghost predicate HasInvitation(t: Registry, boardId: Id, before: Option<Role>, after: Option<Role>) {
    exists k :: k in t.invitations && Invites(t, t.invitations[k], boardId, before, after)
  }

  lemma RedeemGrantsOnlyTheInvitation(t: Registry, token: string, userId: Id, at: int, b: Id, u: Id)
    requires Sound(t) && token in t.invitations && t.invitations[token].consumedAt.None? && t.invitations[token].revokedAt.None?
    requires RoleOf(Redeem(t, token, userId, at), b, u) != RoleOf(t, b, u)
    ensures u == userId && HasInvitation(t, b, RoleOf(t, b, u), RoleOf(Redeem(t, token, userId, at), b, u))
  {
    assert SoundInvitation(t, t.invitations[token]);
    assert Invites(t, t.invitations[token], b, RoleOf(t, b, u), RoleOf(Redeem(t, token, userId, at), b, u));
  }

  lemma RegisteringChangesStanding(t: Registry, s: Settings, bootstrapOnly: bool, userId: Id, login: string, token: Option<string>, at: int, b: Id, u: Id)
    requires Sound(t) && b in t.boards
    requires RoleOf(After(t, Register(t, s, bootstrapOnly, userId, login, token, at)), b, u) != RoleOf(t, b, u)
    ensures userId == u && HasInvitation(t, b, RoleOf(t, b, u), RoleOf(After(t, Register(t, s, bootstrapOnly, userId, login, token, at)), b, u))
  {
    var t' := After(t, Register(t, s, bootstrapOnly, userId, login, token, at));
    var t1 := t.(users := t.users[userId := User(login, |t.users| == 0, false)]);
    assert RoleOf(t1, b, u) == RoleOf(t, b, u);
    NewUserKeepsSound(t, userId, login);
    RedeemGrantsOnlyTheInvitation(t1, token.value, userId, at, b, u);
    var k :| k in t1.invitations && Invites(t1, t1.invitations[k], b, RoleOf(t1, b, u), RoleOf(t', b, u));
    assert Invites(t, t.invitations[k], b, RoleOf(t, b, u), RoleOf(t', b, u));
  }

  /** Setting a role is the owner's act, and changes the one membership named. */
  lemma OwnersSetRoles(t: Registry, actorId: Id, boardId: Id, targetId: Id, role: Option<Role>, b: Id, u: Id)
    requires Sound(t) && RoleOf(After(t, SetMemberRole(t, actorId, boardId, targetId, role)), b, u) != RoleOf(t, b, u)
    ensures b == boardId && u == targetId && b in t.boards && actorId == t.boards[b].ownerUserId
  {
    assert SetMemberRole(t, actorId, boardId, targetId, role).Done?;
    assert RoleOf(t, boardId, actorId) == Some(Owner);
  }

  /**
   * Nobody's standing on an existing board changes except by its owner's hand, or by the person concerned
   * taking up the owner's open invitation, which only ever raises a role and never to owner.
   */
  lemma StandingChangesOnlyByRight(t: Registry, s: Settings, c: Command, b: Id, u: Id)
    requires Sound(t) && b in t.boards && RoleOf(Next(t, s, c), b, u) != RoleOf(t, b, u)
    ensures Actor(c) == t.boards[b].ownerUserId ||
            (Actor(c) == u && HasInvitation(t, b, RoleOf(t, b, u), RoleOf(Next(t, s, c), b, u)))
  {
    match c
    case DoRegister(bootstrapOnly, userId, login, token, at) => RegisteringChangesStanding(t, s, bootstrapOnly, userId, login, token, at, b, u);
    case DoAdopt(actorId, ids) => AdoptingKeepsStanding(t, actorId, ids, b, u);
    case DoConsume(actorId, token, at) => ConsumingChangesStanding(t, actorId, token, at, b, u);
    case DoSetRole(actorId, boardId, targetId, role) => OwnersSetRoles(t, actorId, boardId, targetId, role, b, u);
    case _ => OtherStepsKeepStanding(t, s, c, b, u);
  }

  lemma AdoptingKeepsStanding(t: Registry, ownerId: Id, ids: seq<Id>, b: Id, u: Id)
    requires b in t.boards
    ensures RoleOf(After(t, AdoptLegacyBoards(t, ownerId, ids)), b, u) == RoleOf(t, b, u)
  {
    AdoptedEvolves(t, ownerId, ids);
  }

  lemma ConsumingChangesStanding(t: Registry, userId: Id, token: string, at: int, b: Id, u: Id)
    requires Sound(t) && RoleOf(After(t, ConsumeInvitation(t, userId, token, at)), b, u) != RoleOf(t, b, u)
    ensures u == userId && HasInvitation(t, b, RoleOf(t, b, u), RoleOf(After(t, ConsumeInvitation(t, userId, token, at)), b, u))
  {
    RedeemGrantsOnlyTheInvitation(t, token, userId, at, b, u);
  }

  lemma OtherStepsKeepStanding(t: Registry, s: Settings, c: Command, b: Id, u: Id)
    requires b in t.boards && (c.DoCreateBoard? || c.DoSetDeleted? || c.DoInvite? || c.DoRevoke? || c.DoSetDisabled?)
    ensures RoleOf(Next(t, s, c), b, u) == RoleOf(t, b, u)
  {
  }
}
