/** The account service over its tables, each operation one transaction. */
module AuthService {
  import opened Wrappers
  import opened Accounts
  import opened Entitlements

  /** What a call answers and leaves behind: the new tables, or the reason and the tables as they were. */
  ghost predicate Answers(o: Outcome, before: Registry, refusal: Option<Refusal>, after: Registry) {
    match o
    case Done(t) => refusal.None? && after == t
    case Refused(why) => refusal == Some(why) && after == before
  }

  /** Nobody's standing on a board that was there changed, except by its owner's hand or through the owner's invitation. */
  ghost predicate ByRight(before: Registry, actorId: Id, after: Registry) {
    forall b, u :: b in before.boards && RoleOf(after, b, u) != RoleOf(before, b, u) ==>
      actorId == before.boards[b].ownerUserId || (actorId == u && HasInvitation(before, b, RoleOf(before, b, u), RoleOf(after, b, u)))
  }

  /** What every call keeps: the invariants, everything that is settled, and everybody's standing. */
  ghost predicate Lawful(before: Registry, actorId: Id, after: Registry) {
    match before
    case Registry(_, _, _, _) => Sound(after) && Evolves(before, after) && ByRight(before, actorId, after)
  }

  lemma StepIsLawful(t: Registry, s: Settings, c: Command)
    requires Sound(t)
    ensures Lawful(t, Actor(c), Next(t, s, c))
  {
    StepKeepsSound(t, s, c);
    StepEvolves(t, s, c);
    forall b, u | b in t.boards && RoleOf(Next(t, s, c), b, u) != RoleOf(t, b, u)
      ensures Actor(c) == t.boards[b].ownerUserId || (Actor(c) == u && HasInvitation(t, b, RoleOf(t, b, u), RoleOf(Next(t, s, c), b, u)))
    {
      StandingChangesOnlyByRight(t, s, c, b, u);
    }
  }

  /** Through exactly if allowed, and then with all of its effect; otherwise with a reason that is so and nothing changed. */
  ghost predicate Honours(before: Registry, s: Settings, c: Command, refusal: Option<Refusal>, after: Registry) {
    && Lawful(before, Actor(c), after)
    && match refusal
       case None => Allowed(before, s, c) && Effected(before, c, after)
       case Some(why) => !Allowed(before, s, c) && Warranted(before, s, c, why) && after == before
  }

  /** A call that answers as its command prescribes has done what its actor may do. */
  lemma CallIsHonoured(before: Registry, s: Settings, c: Command, refusal: Option<Refusal>, after: Registry)
    requires Sound(before) && Answers(Perform(before, s, c), before, refusal, after)
    ensures Honours(before, s, c, refusal, after)
  {
    StepIsLawful(before, s, c);
    DoneExactlyWhenAllowed(before, s, c);
    if refusal.None? {
      AllowedIsEffected(before, s, c);
    }
  }

  predicate Open(inv: Invitation, at: int) {
    inv.consumedAt.None? && inv.revokedAt.None? && inv.expiresAt > at
  }

  class AuthService {
    const settings: Settings
    var users: map<Id, User>
    var boards: map<Id, Board>
    var members: map<(Id, Id), Role>
    var invitations: map<string, Invitation>

    constructor (settings: Settings)
      ensures this.settings == settings && State() == EMPTY_REGISTRY && Sound(State())
    {
      this.settings := settings;
      users, boards, members, invitations := map[], map[], map[], map[];
    }

    function State(): Registry
      reads this
    {
      Registry(users, boards, members, invitations)
    }

    method RequireActiveUser(userId: Id) returns (refusal: Option<Refusal>)
      ensures refusal == NotActive(State(), userId)
    {
      if userId !in users {
        return Some(UserNotFound);
      }
      return if users[userId].disabled then Some(AccountDisabled) else None;
    }

    method RequireOwner(userId: Id, boardId: Id, includeDeleted: bool) returns (refusal: Option<Refusal>)
      ensures refusal == NotOwner(State(), userId, boardId, includeDeleted)
    {
      refusal := RequireActiveUser(userId);
      if refusal.Some? {
        return;
      }
      if boardId !in boards || (boardId, userId) !in members || (!includeDeleted && boards[boardId].deleted) {
        return Some(BoardNotFound);
      }
      return if members[(boardId, userId)] != Owner then Some(Forbidden) else None;
    }

    /** The guarded update: it touches the row only while it is neither used, revoked nor expired. */
    method ConsumeRow(token: string, userId: Id, at: int) returns (changed: bool)
      modifies this`invitations
      ensures changed <==> token in old(invitations) && Open(old(invitations)[token], at)
      ensures invitations == if changed then old(invitations)[token := Consumed(old(invitations)[token], userId, at)] else old(invitations)
    {
      if token !in invitations {
        return false;
      }
      var row := invitations[token];
      if !Open(row, at) {
        return false;
      }
      invitations := invitations[token := Consumed(row, userId, at)];
      return true;
    }

    method ApplyInvitedMembership(inv: Invitation, userId: Id)
      modifies this`members
      ensures State() == ApplyMembership(old(State()), inv, userId)
    {
      if inv.boardId.None? || inv.role.None? {
        return;
      }
      var key := (inv.boardId.value, userId);
      if key in members && Rank(members[key]) >= Rank(inv.role.value) {
        return;
      }
      members := members[key := inv.role.value];
    }

    method TryRegisterInternal(bootstrapOnly: bool, userId: Id, login: string, token: Option<string>, at: int) returns (refusal: Option<Refusal>)
      modifies this
      ensures Answers(Register(old(State()), settings, bootstrapOnly, userId, login, token, at), old(State()), refusal, State())
    {
      var userCount := |users|;
      if bootstrapOnly && userCount != 0 {
        return Some(BootstrapComplete);
      }
      if exists u :: u in users && users[u].login == login {
        return Some(LoginTaken);
      }
      if token.Some? && token.value !in invitations {
        return Some(InvalidInvitation);
      }
      if userCount > 0 && !settings.allowOpenRegistration && token.None? {
        return Some(InvitationRequired);
      }
      if token.Some? && !Usable(State(), invitations[token.value], login, at) {
        return Some(InvalidInvitation);
      }
      if userId in users {
        return Some(Conflict);
      }
      users := users[userId := User(login, userCount == 0, false)];
      if token.Some? {
        var inv := invitations[token.value];
        var changed := ConsumeRow(token.value, userId, at);
        ApplyInvitedMembership(inv, userId);
      }
      return None;
    }

    method TryCreateBoard(userId: Id, boardId: Id) returns (refusal: Option<Refusal>)
      modifies this
      ensures Answers(Accounts.CreateBoard(old(State()), userId, boardId), old(State()), refusal, State())
    {
      refusal := RequireActiveUser(userId);
      if refusal.Some? {
        return;
      }
      if boardId in boards {
        return Some(BoardExists);
      }
      boards := boards[boardId := Board(userId, false)];
      members := members[(boardId, userId) := Owner];
    }

    method TryAdoptLegacyBoards(ownerId: Id, ids: seq<Id>) returns (refusal: Option<Refusal>, adopted: seq<Id>)
      modifies this
      ensures Answers(Accounts.AdoptLegacyBoards(old(State()), ownerId, ids), old(State()), refusal, State())
      ensures forall id :: id in adopted <==> id in boards && id !in old(boards)
    {
      adopted := [];
      refusal := RequireActiveUser(ownerId);
      if refusal.Some? {
        return;
      }
      if !users[ownerId].isAdmin {
        return Some(Forbidden), [];
      }
      if |ids| > MAX_ADOPTED {
        return Some(InvalidInput), [];
      }
      for i := 0 to |ids|
        invariant State() == Adopted(old(State()), ownerId, ids[..i])
        invariant forall id :: id in adopted <==> id in boards && id !in old(boards)
        invariant old(boards).Keys <= boards.Keys
      {
        assert ids[..i + 1][..i] == ids[..i];
        if ids[i] !in boards {
          boards := boards[ids[i] := Board(ownerId, false)];
          members := members[(ids[i], ownerId) := Owner];
          adopted := adopted + [ids[i]];
        }
      }
      assert ids[..|ids|] == ids;
    }

    method TrySetBoardDeleted(userId: Id, boardId: Id, deleted: bool) returns (refusal: Option<Refusal>)
      modifies this`boards
      ensures Answers(Accounts.SetBoardDeleted(old(State()), userId, boardId, deleted), old(State()), refusal, State())
    {
      refusal := RequireOwner(userId, boardId, true);
      assert refusal.None? ==> boards[boardId := boards[boardId]] == boards;
      if refusal.None? && boards[boardId].deleted != deleted {
        boards := boards[boardId := boards[boardId].(deleted := deleted)];
      }
    }

    method TrySetBoardMemberRole(actorId: Id, boardId: Id, targetId: Id, role: Option<Role>) returns (refusal: Option<Refusal>)
      modifies this`members
      ensures Answers(SetMemberRole(old(State()), actorId, boardId, targetId, role), old(State()), refusal, State())
    {
      refusal := RequireOwner(actorId, boardId, false);
      if refusal.Some? {
        return;
      }
      if targetId == boards[boardId].ownerUserId {
        return Some(Forbidden);
      }
      refusal := RequireActiveUser(targetId);
      if refusal.Some? {
        return;
      }
      if role == Some(Owner) {
        return Some(InvalidInput);
      }
      if role.None? {
        members := members - {(boardId, targetId)};
      } else {
        members := members[(boardId, targetId) := role.value];
      }
    }

    method TryCreateInvitation(actorId: Id, token: string, boardId: Option<Id>, role: Option<Role>, invitedLogin: Option<string>, expiresAt: int)
      returns (refusal: Option<Refusal>)
      modifies this`invitations
      ensures Answers(Accounts.CreateInvitation(old(State()), actorId, token, boardId, role, invitedLogin, expiresAt), old(State()), refusal, State())
    {
      refusal := RequireActiveUser(actorId);
      if refusal.Some? {
        return;
      }
      if role == Some(Owner) || (boardId.None? && role.Some?) {
        return Some(InvalidInput);
      }
      if boardId.Some? {
        refusal := RequireOwner(actorId, boardId.value, false);
        if refusal.Some? {
          return;
        }
      } else if !users[actorId].isAdmin {
        return Some(Forbidden);
      }
      if token in invitations {
        return Some(Conflict);
      }
      var granted := if boardId.None? then None else if role.None? then Some(Viewer) else role;
      invitations := invitations[token := Invitation(actorId, boardId, granted, invitedLogin, expiresAt, None, None, None)];
    }

    method TryConsumeInvitation(userId: Id, token: string, at: int) returns (refusal: Option<Refusal>)
      modifies this
      ensures Answers(Accounts.ConsumeInvitation(old(State()), userId, token, at), old(State()), refusal, State())
    {
      refusal := RequireActiveUser(userId);
      if refusal.Some? {
        return;
      }
      if token !in invitations || !Usable(State(), invitations[token], users[userId].login, at) {
        return Some(InvalidInvitation);
      }
      var inv := invitations[token];
      var changed := ConsumeRow(token, userId, at);
      if !changed {
        return Some(InvalidInvitation);
      }
      ApplyInvitedMembership(inv, userId);
    }

    method TryRevokeInvitation(actorId: Id, token: string, at: int) returns (refusal: Option<Refusal>, revoked: bool)
      modifies this`invitations
      ensures Answers(Accounts.RevokeInvitation(old(State()), actorId, token, at), old(State()), refusal, State())
      ensures revoked <==> invitations != old(invitations)
    {
      refusal := RequireActiveUser(actorId);
      if refusal.Some? {
        return refusal, false;
      }
      if token !in invitations || invitations[token].consumedAt.Some? || invitations[token].revokedAt.Some? {
        return None, false;
      }
      if invitations[token].createdBy != actorId && !users[actorId].isAdmin {
        return Some(Forbidden), false;
      }
      invitations := invitations[token := invitations[token].(revokedAt := Some(at))];
      assert invitations[token] != old(invitations)[token];
      return None, true;
    }

    method TrySetUserDisabled(actorId: Id, targetId: Id, disabled: bool) returns (refusal: Option<Refusal>)
      modifies this`users
      ensures Answers(Accounts.SetUserDisabled(old(State()), actorId, targetId, disabled), old(State()), refusal, State())
    {
      refusal := RequireActiveUser(actorId);
      if refusal.Some? {
        return;
      }
      if !users[actorId].isAdmin || (actorId == targetId && disabled) {
        return Some(Forbidden);
      }
      if targetId !in users {
        return Some(UserNotFound);
      }
      users := users[targetId := users[targetId].(disabled := disabled)];
    }

    /* ----------------------- the operations: a transaction body, and what every caller may count on */

    method RegisterInternal(bootstrapOnly: bool, userId: Id, login: string, token: Option<string>, at: int) returns (refusal: Option<Refusal>)
      requires Sound(State())
      modifies this
      ensures Answers(Register(old(State()), settings, bootstrapOnly, userId, login, token, at), old(State()), refusal, State())
      ensures Honours(old(State()), settings, DoRegister(bootstrapOnly, userId, login, token, at), refusal, State())
    {
      ghost var before := State();
      refusal := TryRegisterInternal(bootstrapOnly, userId, login, token, at);
      CallIsHonoured(before, settings, DoRegister(bootstrapOnly, userId, login, token, at), refusal, State());
    }

    method CreateBoard(userId: Id, boardId: Id) returns (refusal: Option<Refusal>)
      requires Sound(State())
      modifies this
      ensures Answers(Accounts.CreateBoard(old(State()), userId, boardId), old(State()), refusal, State())
      ensures Honours(old(State()), settings, DoCreateBoard(userId, boardId), refusal, State())
    {
      ghost var before := State();
      refusal := TryCreateBoard(userId, boardId);
      CallIsHonoured(before, settings, DoCreateBoard(userId, boardId), refusal, State());
    }

    method AdoptLegacyBoards(ownerId: Id, ids: seq<Id>) returns (refusal: Option<Refusal>, adopted: seq<Id>)
      requires Sound(State())
      modifies this
      ensures Answers(Accounts.AdoptLegacyBoards(old(State()), ownerId, ids), old(State()), refusal, State())
      ensures Honours(old(State()), settings, DoAdopt(ownerId, ids), refusal, State())
      ensures forall id :: id in adopted <==> id in boards && id !in old(boards)
    {
      ghost var before := State();
      refusal, adopted := TryAdoptLegacyBoards(ownerId, ids);
      CallIsHonoured(before, settings, DoAdopt(ownerId, ids), refusal, State());
    }

    method SetBoardDeleted(userId: Id, boardId: Id, deleted: bool) returns (refusal: Option<Refusal>)
      requires Sound(State())
      modifies this`boards
      ensures Answers(Accounts.SetBoardDeleted(old(State()), userId, boardId, deleted), old(State()), refusal, State())
      ensures Honours(old(State()), settings, DoSetDeleted(userId, boardId, deleted), refusal, State())
    {
      ghost var before := State();
      refusal := TrySetBoardDeleted(userId, boardId, deleted);
      CallIsHonoured(before, settings, DoSetDeleted(userId, boardId, deleted), refusal, State());
    }

    method SetBoardMemberRole(actorId: Id, boardId: Id, targetId: Id, role: Option<Role>) returns (refusal: Option<Refusal>)
      requires Sound(State())
      modifies this`members
      ensures Answers(SetMemberRole(old(State()), actorId, boardId, targetId, role), old(State()), refusal, State())
      ensures Honours(old(State()), settings, DoSetRole(actorId, boardId, targetId, role), refusal, State())
    {
      ghost var before := State();
      refusal := TrySetBoardMemberRole(actorId, boardId, targetId, role);
      CallIsHonoured(before, settings, DoSetRole(actorId, boardId, targetId, role), refusal, State());
    }

    method CreateInvitation(actorId: Id, token: string, boardId: Option<Id>, role: Option<Role>, invitedLogin: Option<string>, expiresAt: int)
      returns (refusal: Option<Refusal>)
      requires Sound(State())
      modifies this`invitations
      ensures Answers(Accounts.CreateInvitation(old(State()), actorId, token, boardId, role, invitedLogin, expiresAt), old(State()), refusal, State())
      ensures Honours(old(State()), settings, DoInvite(actorId, token, boardId, role, invitedLogin, expiresAt), refusal, State())
    {
      ghost var before := State();
      refusal := TryCreateInvitation(actorId, token, boardId, role, invitedLogin, expiresAt);
      CallIsHonoured(before, settings, DoInvite(actorId, token, boardId, role, invitedLogin, expiresAt), refusal, State());
    }

    method ConsumeInvitation(userId: Id, token: string, at: int) returns (refusal: Option<Refusal>)
      requires Sound(State())
      modifies this
      ensures Answers(Accounts.ConsumeInvitation(old(State()), userId, token, at), old(State()), refusal, State())
      ensures Honours(old(State()), settings, DoConsume(userId, token, at), refusal, State())
    {
      ghost var before := State();
      refusal := TryConsumeInvitation(userId, token, at);
      CallIsHonoured(before, settings, DoConsume(userId, token, at), refusal, State());
    }

    method RevokeInvitation(actorId: Id, token: string, at: int) returns (refusal: Option<Refusal>, revoked: bool)
      requires Sound(State())
      modifies this`invitations
      ensures Answers(Accounts.RevokeInvitation(old(State()), actorId, token, at), old(State()), refusal, State())
      ensures Honours(old(State()), settings, DoRevoke(actorId, token, at), refusal, State())
      ensures revoked <==> invitations != old(invitations)
    {
      ghost var before := State();
      refusal, revoked := TryRevokeInvitation(actorId, token, at);
      CallIsHonoured(before, settings, DoRevoke(actorId, token, at), refusal, State());
    }

    method SetUserDisabled(actorId: Id, targetId: Id, disabled: bool) returns (refusal: Option<Refusal>)
      requires Sound(State())
      modifies this`users
      ensures Answers(Accounts.SetUserDisabled(old(State()), actorId, targetId, disabled), old(State()), refusal, State())
      ensures Honours(old(State()), settings, DoSetDisabled(actorId, targetId, disabled), refusal, State())
    {
      ghost var before := State();
      refusal := TrySetUserDisabled(actorId, targetId, disabled);
      CallIsHonoured(before, settings, DoSetDisabled(actorId, targetId, disabled), refusal, State());
    }
  }
}
