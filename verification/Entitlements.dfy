/**
 * What the account operations come to, in terms of the rows: who may do what and when, why someone may not, and what is
 * then different, with everything else as it was.
 */
module Entitlements {
  import opened Wrappers
  import opened Accounts

  /* --------------------------------------------------------------------------- who may */

  predicate Active(t: Registry, userId: Id) {
    userId in t.users && !t.users[userId].disabled
  }

  predicate Administers(t: Registry, userId: Id) {
    Active(t, userId) && t.users[userId].isAdmin
  }

  predicate Owns(t: Registry, userId: Id, boardId: Id) {
    Active(t, userId) && boardId in t.boards && t.boards[boardId].ownerUserId == userId
  }

  predicate Stands(t: Registry, boardId: Id) {
    boardId in t.boards && !t.boards[boardId].deleted
  }

  ghost predicate LoginTakenBy(t: Registry, login: string) {
    exists u :: u in t.users && t.users[u].login == login
  }

  /** Neither used nor revoked, not yet run out, for this login if for any, and for a board that stands if for any. */
  predicate OpenTo(t: Registry, token: string, login: string, at: int) {
    && token in t.invitations
    && var inv := t.invitations[token];
       && inv.consumedAt == None && inv.revokedAt == None && at < inv.expiresAt
       && (inv.invitedLogin == None || inv.invitedLogin == Some(login))
       && (inv.boardId == None || Stands(t, inv.boardId.value))
  }

  /** Neither used nor revoked. */
  predicate Pending(t: Registry, token: string) {
    token in t.invitations && t.invitations[token].consumedAt == None && t.invitations[token].revokedAt == None
  }

  ghost predicate Allowed(t: Registry, s: Settings, c: Command) {
    match c
    case DoRegister(bootstrapOnly, userId, login, token, at) =>
      && userId !in t.users && !LoginTakenBy(t, login) && (bootstrapOnly ==> t.users == map[])
      && match token {
           case None => t.users == map[] || s.allowOpenRegistration
           case Some(k) => OpenTo(t, k, login, at)
         }
    case DoCreateBoard(actorId, boardId) => Active(t, actorId) && boardId !in t.boards
    case DoAdopt(actorId, ids) => Administers(t, actorId) && |ids| <= 1000
    case DoSetDeleted(actorId, boardId, _) => Owns(t, actorId, boardId)
    case DoSetRole(actorId, boardId, targetId, role) =>
      Owns(t, actorId, boardId) && Stands(t, boardId) && Active(t, targetId) && targetId != actorId && role != Some(Owner)
    case DoInvite(actorId, token, boardId, role, _, _) =>
      && token !in t.invitations
      && match boardId {
           case None => Administers(t, actorId) && role == None
           case Some(b) => Owns(t, actorId, b) && Stands(t, b) && role != Some(Owner)
         }
    case DoConsume(actorId, token, at) => Active(t, actorId) && OpenTo(t, token, t.users[actorId].login, at)
    case DoRevoke(actorId, token, _) =>
      Active(t, actorId) && (Pending(t, token) ==> t.invitations[token].createdBy == actorId || Administers(t, actorId))
    case DoSetDisabled(actorId, targetId, disabled) => Administers(t, actorId) && targetId in t.users && (disabled ==> targetId != actorId)
  }

  /** What a refusal says is so. */
  ghost predicate Warranted(t: Registry, s: Settings, c: Command, why: Refusal) {
    match why
    case BootstrapComplete => c.DoRegister? && c.bootstrapOnly && t.users != map[]
    case LoginTaken => c.DoRegister? && LoginTakenBy(t, c.login)
    case InvalidInvitation =>
      match c {
        case DoRegister(_, _, login, token, at) => token.Some? && !OpenTo(t, token.value, login, at)
        case DoConsume(actorId, token, at) => Active(t, actorId) && !OpenTo(t, token, t.users[actorId].login, at)
        case _ => false
      }
    case InvitationRequired => c.DoRegister? && c.token == None && t.users != map[] && !s.allowOpenRegistration
    case UserNotFound => exists u :: Names(c, u) && u !in t.users
    case AccountDisabled => exists u :: Names(c, u) && u in t.users && t.users[u].disabled
    case BoardExists => c.DoCreateBoard? && c.boardId in t.boards
    case BoardNotFound =>
      match c {
        case DoSetDeleted(actorId, boardId, _) => (boardId, actorId) !in t.members
        case DoSetRole(actorId, boardId, _, _) => (boardId, actorId) !in t.members || !Stands(t, boardId)
        case DoInvite(actorId, _, boardId, _, _, _) => boardId.Some? && ((boardId.value, actorId) !in t.members || !Stands(t, boardId.value))
        case _ => false
      }
    case Forbidden =>
      match c {
        case DoAdopt(actorId, _) => !Administers(t, actorId)
        case DoSetDeleted(actorId, boardId, _) => !Owns(t, actorId, boardId)
        case DoSetRole(actorId, boardId, targetId, _) => !Owns(t, actorId, boardId) || targetId == actorId
        case DoInvite(actorId, _, boardId, _, _, _) => if boardId.Some? then !Owns(t, actorId, boardId.value) else !Administers(t, actorId)
        case DoRevoke(actorId, token, _) => Pending(t, token) && t.invitations[token].createdBy != actorId && !Administers(t, actorId)
        case DoSetDisabled(actorId, targetId, disabled) => !Administers(t, actorId) || (disabled && targetId == actorId)
        case _ => false
      }
    case InvalidInput =>
      match c {
        case DoAdopt(_, ids) => |ids| > 1000
        case DoSetRole(_, _, _, role) => role == Some(Owner)
        case DoInvite(_, _, boardId, role, _, _) => role == Some(Owner) || (boardId == None && role != None)
        case _ => false
      }
    case Conflict => (c.DoRegister? && c.userId in t.users) || (c.DoInvite? && c.newToken in t.invitations)
  }

  /** The users whose accounts a command relies on. */
  predicate Names(c: Command, u: Id) {
    match c
    case DoRegister(_, _, _, _, _) => false
    case DoCreateBoard(actorId, _) => u == actorId
    case DoAdopt(actorId, _) => u == actorId
    case DoSetDeleted(actorId, _, _) => u == actorId
    case DoSetRole(actorId, _, targetId, _) => u == actorId || u == targetId
    case DoInvite(actorId, _, _, _, _, _) => u == actorId
    case DoConsume(actorId, _, _) => u == actorId
    case DoRevoke(actorId, _, _) => u == actorId
    case DoSetDisabled(actorId, targetId, _) => u == actorId || u == targetId
  }

  /* -------------------------------------------------------------------- what comes of it */

  ghost predicate OnlyUser(t: Registry, t': Registry, userId: Id) {
    forall u :: u != userId ==> (u in t'.users <==> u in t.users) && (u in t.users ==> t'.users[u] == t.users[u])
  }

  ghost predicate OnlyBoard(t: Registry, t': Registry, boardId: Id) {
    forall b :: b != boardId ==> (b in t'.boards <==> b in t.boards) && (b in t.boards ==> t'.boards[b] == t.boards[b])
  }

  ghost predicate OnlyMember(t: Registry, t': Registry, boardId: Id, userId: Id) {
    forall m :: m != (boardId, userId) ==> (m in t'.members <==> m in t.members) && (m in t.members ==> t'.members[m] == t.members[m])
  }

  ghost predicate OnlyInvitation(t: Registry, t': Registry, token: string) {
    forall k :: k != token ==> (k in t'.invitations <==> k in t.invitations) && (k in t.invitations ==> t'.invitations[k] == t.invitations[k])
  }

  /** The role held before, if it is as high as the one granted. */
  function Raised(before: Option<Role>, granted: Role): Role {
    match (before, granted)
    case (Some(Owner), _) => Owner
    case (_, Owner) => Owner
    case (Some(Editor), _) => Editor
    case (_, Editor) => Editor
    case _ => Viewer
  }

  /** The invitation is marked with the user and the time; a board invitation makes the user a member, in no lower a role. */
  ghost predicate Granted(t: Registry, t': Registry, token: string, userId: Id, at: int) {
    && token in t.invitations && token in t'.invitations && OnlyInvitation(t, t', token)
    && var inv, inv' := t.invitations[token], t'.invitations[token];
       && inv'.consumedAt == Some(at) && inv'.consumedBy == Some(userId) && inv'.revokedAt == inv.revokedAt
       && inv'.createdBy == inv.createdBy && inv'.boardId == inv.boardId && inv'.role == inv.role
       && inv'.invitedLogin == inv.invitedLogin && inv'.expiresAt == inv.expiresAt
       && match inv.boardId {
            case None => t'.members == t.members
            case Some(b) =>
              && OnlyMember(t, t', b, userId) && (b, userId) in t'.members && inv.role.Some?
              && t'.members[(b, userId)] == Raised(if (b, userId) in t.members then Some(t.members[(b, userId)]) else None, inv.role.value)
          }
  }

  ghost predicate Effected(t: Registry, c: Command, t': Registry) {
    match c
    case DoRegister(_, userId, login, token, at) =>
      && t'.boards == t.boards && OnlyUser(t, t', userId) && userId in t'.users && t'.users[userId].login == login
      && (t'.users[userId].isAdmin <==> t.users == map[]) && !t'.users[userId].disabled
      && match token {
           case None => t'.members == t.members && t'.invitations == t.invitations
           case Some(k) => Granted(t, t', k, userId, at)
         }
    case DoCreateBoard(actorId, boardId) =>
      && t'.users == t.users && t'.invitations == t.invitations && OnlyBoard(t, t', boardId) && OnlyMember(t, t', boardId, actorId)
      && NewBoard(t', actorId, boardId)
    case DoAdopt(actorId, ids) =>
      AdoptedEach(t, actorId, ids, t')
    case DoSetDeleted(actorId, boardId, deleted) =>
      && t'.users == t.users && t'.members == t.members && t'.invitations == t.invitations && OnlyBoard(t, t', boardId)
      && boardId in t.boards && boardId in t'.boards && t'.boards[boardId].deleted == deleted && t'.boards[boardId].ownerUserId == t.boards[boardId].ownerUserId
    case DoSetRole(actorId, boardId, targetId, role) =>
      && t'.users == t.users && t'.boards == t.boards && t'.invitations == t.invitations && OnlyMember(t, t', boardId, targetId)
      && match role {
           case None => (boardId, targetId) !in t'.members
           case Some(r) => (boardId, targetId) in t'.members && t'.members[(boardId, targetId)] == r
         }
    case DoInvite(actorId, token, boardId, role, login, expiresAt) =>
      && t'.users == t.users && t'.boards == t.boards && t'.members == t.members && OnlyInvitation(t, t', token) && token in t'.invitations
      && var inv := t'.invitations[token];
         && inv.createdBy == actorId && inv.boardId == boardId && inv.invitedLogin == login && inv.expiresAt == expiresAt
         && inv.consumedAt == None && inv.consumedBy == None && inv.revokedAt == None
         && (inv.role.Some? <==> boardId.Some?) && (boardId.Some? ==> inv.role.value == if role.Some? then role.value else Viewer)
    case DoConsume(actorId, token, at) => t'.users == t.users && t'.boards == t.boards && Granted(t, t', token, actorId, at)
    case DoRevoke(_, token, at) =>
      && t'.users == t.users && t'.boards == t.boards && t'.members == t.members
      && if Pending(t, token) then
           && OnlyInvitation(t, t', token) && token in t'.invitations && t'.invitations[token].revokedAt == Some(at)
           && t'.invitations[token].consumedAt == None && t'.invitations[token].consumedBy == t.invitations[token].consumedBy
           && SameOffer(t.invitations[token], t'.invitations[token])
         else t'.invitations == t.invitations
    case DoSetDisabled(_, targetId, disabled) =>
      && t'.boards == t.boards && t'.members == t.members && t'.invitations == t.invitations && OnlyUser(t, t', targetId)
      && targetId in t.users && targetId in t'.users && t'.users[targetId].disabled == disabled
      && t'.users[targetId].login == t.users[targetId].login && t'.users[targetId].isAdmin == t.users[targetId].isAdmin
  }

  ghost predicate NewBoard(t: Registry, ownerId: Id, boardId: Id) {
    && boardId in t.boards && t.boards[boardId].ownerUserId == ownerId && !t.boards[boardId].deleted
    && (boardId, ownerId) in t.members && t.members[(boardId, ownerId)] == Owner
  }

  /** Those of the boards that are not there yet are now, and are the owner's. */
  ghost predicate AdoptedEach(t: Registry, ownerId: Id, ids: seq<Id>, t': Registry) {
    && t'.users == t.users && t'.invitations == t.invitations
    && (forall b :: b in t'.boards <==> b in t.boards || b in ids)
    && (forall b :: b in t.boards ==> t'.boards[b] == t.boards[b])
    && (forall b :: b in ids && b !in t.boards ==> NewBoard(t', ownerId, b))
    && (forall m: (Id, Id) :: !(m.0 in ids && m.0 !in t.boards && m.1 == ownerId) ==>
          (m in t'.members <==> m in t.members) && (m in t.members ==> t'.members[m] == t.members[m]))
  }

  ghost predicate SameOffer(inv: Invitation, inv': Invitation) {
    && inv'.createdBy == inv.createdBy && inv'.boardId == inv.boardId && inv'.role == inv.role
    && inv'.invitedLogin == inv.invitedLogin && inv'.expiresAt == inv.expiresAt
  }

  /* ------------------------------------------------------------------------------ proofs */

  lemma OwnershipIsMembership(t: Registry, userId: Id, boardId: Id)
    requires Sound(t) && boardId in t.boards
    ensures RoleOf(t, boardId, userId) == Some(Owner) <==> t.boards[boardId].ownerUserId == userId
  {
  }

  lemma OwnerIsOwner(t: Registry, userId: Id, boardId: Id, includeDeleted: bool)
    requires Sound(t)
    ensures match NotOwner(t, userId, boardId, includeDeleted)
            case None => Owns(t, userId, boardId) && (Stands(t, boardId) || includeDeleted)
            case Some(UserNotFound) => userId !in t.users
            case Some(AccountDisabled) => userId in t.users && t.users[userId].disabled
            case Some(BoardNotFound) => (boardId, userId) !in t.members || (!includeDeleted && !Stands(t, boardId))
            case Some(why) => why == Forbidden && !Owns(t, userId, boardId)
    ensures NotOwner(t, userId, boardId, includeDeleted) == None <== Owns(t, userId, boardId) && (Stands(t, boardId) || includeDeleted)
  {
    if boardId in t.boards {
      OwnershipIsMembership(t, userId, boardId);
    }
  }

  lemma RedeemingGrants(t: Registry, token: string, userId: Id, at: int)
    requires token in t.invitations && (t.invitations[token].boardId.Some? <==> t.invitations[token].role.Some?)
    ensures Granted(t, Redeem(t, token, userId, at), token, userId, at)
    ensures Redeem(t, token, userId, at).users == t.users && Redeem(t, token, userId, at).boards == t.boards
  {
  }

  lemma RegisteringDoes(t: Registry, s: Settings, c: Command)
    requires Sound(t) && c.DoRegister? && Perform(t, s, c).Done?
    ensures Effected(t, c, Next(t, s, c))
  {
    assert |t.users| == |t.users.Keys|;
    if c.token.Some? {
      assert SoundInvitation(t, t.invitations[c.token.value]);
      var t1 := t.(users := t.users[c.userId := User(c.login, |t.users| == 0, false)]);
      RedeemingGrants(t1, c.token.value, c.userId, c.at);
    }
  }

  lemma {:induction false} AdoptingDoes(t: Registry, ownerId: Id, ids: seq<Id>)
    ensures AdoptedEach(t, ownerId, ids, Adopted(t, ownerId, ids))
    decreases |ids|
  {
    if ids != [] {
      var front, id := ids[..|ids| - 1], ids[|ids| - 1];
      AdoptingDoes(t, ownerId, front);
      assert forall b :: b in ids <==> b in front || b == id;
      OneMoreAdopted(t, ownerId, front, id, ids, Adopted(t, ownerId, front));
    }
  }

  lemma OneMoreAdopted(t: Registry, ownerId: Id, front: seq<Id>, id: Id, ids: seq<Id>, t1: Registry)
    requires AdoptedEach(t, ownerId, front, t1) && forall b :: b in ids <==> b in front || b == id
    ensures AdoptedEach(t, ownerId, ids, if id in t1.boards then t1 else AddBoard(t1, id, ownerId))
  {
    var t' := if id in t1.boards then t1 else AddBoard(t1, id, ownerId);
    forall b | b in ids && b !in t.boards
      ensures NewBoard(t', ownerId, b)
    {
      if b in front {
        assert NewBoard(t1, ownerId, b);
      }
    }
  }

  lemma AllowedToRegister(t: Registry, s: Settings, c: Command)
    requires Sound(t) && c.DoRegister?
    ensures Perform(t, s, c).Done? <==> Allowed(t, s, c)
    ensures Perform(t, s, c).Refused? ==> Warranted(t, s, c, Perform(t, s, c).why)
  {
    assert |t.users| == |t.users.Keys|;
    assert t.users == map[] <==> t.users.Keys == {};
    assert LoginHolder(t, c.login) <==> LoginTakenBy(t, c.login);
  }

  lemma AllowedToDelete(t: Registry, s: Settings, c: Command)
    requires Sound(t) && c.DoSetDeleted?
    ensures Perform(t, s, c).Done? <==> Allowed(t, s, c)
    ensures Perform(t, s, c).Refused? ==> Warranted(t, s, c, Perform(t, s, c).why)
  {
    assert Names(c, c.actorId);
    OwnerIsOwner(t, c.actorId, c.boardId, true);
  }

  lemma AllowedToSetRole(t: Registry, s: Settings, c: Command)
    requires Sound(t) && c.DoSetRole?
    ensures Perform(t, s, c).Done? <==> Allowed(t, s, c)
    ensures Perform(t, s, c).Refused? ==> Warranted(t, s, c, Perform(t, s, c).why)
  {
    assert Names(c, c.actorId) && Names(c, c.targetId);
    OwnerIsOwner(t, c.actorId, c.boardId, false);
  }

  lemma AllowedToInvite(t: Registry, s: Settings, c: Command)
    requires Sound(t) && c.DoInvite?
    ensures Perform(t, s, c).Done? <==> Allowed(t, s, c)
    ensures Perform(t, s, c).Refused? ==> Warranted(t, s, c, Perform(t, s, c).why)
  {
    assert Names(c, c.actorId);
    if c.invitedTo.Some? {
      OwnerIsOwner(t, c.actorId, c.invitedTo.value, false);
    }
  }

  lemma AllowedForThemselves(t: Registry, s: Settings, c: Command)
    requires c.DoCreateBoard? || c.DoAdopt? || c.DoConsume?
    ensures Perform(t, s, c).Done? <==> Allowed(t, s, c)
    ensures Perform(t, s, c).Refused? ==> Warranted(t, s, c, Perform(t, s, c).why)
  {
    assert Names(c, c.actorId);
  }

  lemma AllowedOnOthers(t: Registry, s: Settings, c: Command)
    requires c.DoRevoke? || c.DoSetDisabled?
    ensures Perform(t, s, c).Done? <==> Allowed(t, s, c)
    ensures Perform(t, s, c).Refused? ==> Warranted(t, s, c, Perform(t, s, c).why)
  {
    assert Names(c, c.actorId) && (c.DoSetDisabled? ==> Names(c, c.targetId));
  }

  /** A command goes through exactly when it is allowed; if it does not, nothing changes and what it is refused for is so. */
  lemma DoneExactlyWhenAllowed(t: Registry, s: Settings, c: Command)
    requires Sound(t)
    ensures Perform(t, s, c).Done? <==> Allowed(t, s, c)
    ensures match Perform(t, s, c)
            case Done(t') => Next(t, s, c) == t'
            case Refused(why) => Next(t, s, c) == t && Warranted(t, s, c, why)
  {
    match c
    case DoRegister(_, _, _, _, _) => AllowedToRegister(t, s, c);
    case DoSetDeleted(_, _, _) => AllowedToDelete(t, s, c);
    case DoSetRole(_, _, _, _) => AllowedToSetRole(t, s, c);
    case DoInvite(_, _, _, _, _, _) => AllowedToInvite(t, s, c);
    case DoRevoke(_, _, _) => AllowedOnOthers(t, s, c);
    case DoSetDisabled(_, _, _) => AllowedOnOthers(t, s, c);
    case _ => AllowedForThemselves(t, s, c);
  }

  lemma BoardActsDo(t: Registry, s: Settings, c: Command)
    requires (c.DoCreateBoard? || c.DoSetDeleted? || c.DoSetRole?) && Perform(t, s, c).Done?
    ensures Effected(t, c, Next(t, s, c))
  {
  }

  lemma InvitingDoes(t: Registry, s: Settings, c: Command)
    requires (c.DoInvite? || c.DoRevoke? || c.DoSetDisabled?) && Perform(t, s, c).Done?
    ensures Effected(t, c, Next(t, s, c))
  {
  }

  /** And an allowed command has its effect, the whole of it and nothing else. */
  lemma AllowedIsEffected(t: Registry, s: Settings, c: Command)
    requires Sound(t) && Allowed(t, s, c)
    ensures Effected(t, c, Next(t, s, c))
  {
    DoneExactlyWhenAllowed(t, s, c);
    match c
    case DoRegister(_, _, _, _, _) => RegisteringDoes(t, s, c);
    case DoAdopt(actorId, ids) => AdoptingDoes(t, actorId, ids);
    case DoConsume(actorId, token, at) =>
      assert SoundInvitation(t, t.invitations[token]);
      RedeemingGrants(t, token, actorId, at);
    case DoInvite(_, _, _, _, _, _) => InvitingDoes(t, s, c);
    case DoRevoke(_, _, _) => InvitingDoes(t, s, c);
    case DoSetDisabled(_, _, _) => InvitingDoes(t, s, c);
    case _ => BoardActsDo(t, s, c);
  }
}
