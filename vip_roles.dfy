/**
 * The membership action service: granting (`giveVipRole`) and revoking
 * (`removeVipRole`) a VIP role on a member of the fixed Discord server, with a
 * best-effort audit entry for every real change.
 *
 * The platform is abstracted to the state both operations read and write: whether
 * the server is in the client's cache, each member's tag and role set, the names of
 * the server's roles, whether the audit channel is in the cache, and the entries
 * posted to that channel so far. `Grant` and `Revoke` are the specification on
 * values; the class `Platform` performs the same steps in place and is proved to
 * agree with them.
 */
module VipRoles {

  import opened Js
  import opened RoleResolver

  /** A Discord user snowflake as sent in the request body. */
  type MemberId = string

  /** The action label written into the audit entry and echoed in the result. */
  datatype ActionTag = Attribution | Suppression {
    function Label(): string {
      match this
      case Attribution => "attribution"
      case Suppression => "suppression"
    }
  }

  /** A server member: the user tag shown in results, and the ids of the roles held. */
  datatype Member = Member(tag: string, roles: set<RoleId>)

  /** One audit post: who, which role, which action. */
  datatype LogEntry = LogEntry(member: MemberId, role: RoleId, action: ActionTag)

  /** The part of the platform the two operations observe and change. */
  datatype Server = Server(
    guildFound: bool,
    members: map<MemberId, Member>,
    roleNames: map<RoleId, string>,
    logChannelFound: bool,
    log: seq<LogEntry>)

  /**
   * The JSON object both operations return:
   * `{success:false, error}`, `{success:true, message[, member]}` or
   * `{success:true, member, role, action}`.
   */
  datatype ActionResult =
    | Failed(error: string)
    | Unchanged(message: string, tag: Option<string>)
    | Applied(memberTag: string, roleName: string, action: ActionTag)
  {
    predicate Success() {
      !Failed?
    }
  }

  /** The state after an operation, with what it returned. */
  datatype Outcome = Outcome(after: Server, result: ActionResult)

  const GUILD_NOT_FOUND := "Serveur Discord introuvable"
  const GRANT_MEMBER_NOT_FOUND := "Membre introuvable sur le serveur"
  const REVOKE_MEMBER_NOT_FOUND := "Membre introuvable"
  const GRANT_ROLE_NOT_FOUND := "Rôle introuvable sur le serveur"
  const REVOKE_ROLE_NOT_FOUND := "Rôle introuvable"
  const ALREADY_GRANTED := "Rôle déjà attribué"
  const ALREADY_ABSENT := "Rôle déjà absent"

  /** `logVipAction`: one entry is posted when the audit channel is found, nothing otherwise. */
  function Logged(s: Server, id: MemberId, role: RoleId, action: ActionTag): (t: Server)
    ensures t.log == if s.logChannelFound then s.log + [LogEntry(id, role, action)] else s.log
    ensures t.(log := s.log) == s
  {
    if s.logChannelFound then s.(log := s.log + [LogEntry(id, role, action)]) else s
  }

  /** `giveVipRole`: every thrown error is folded into a `Failed` result. */
  function Grant(s: Server, id: MemberId, roleType: string): (o: Outcome)
    // the server, its roles and the audit channel are never touched; nobody joins or leaves
    ensures o.after.guildFound == s.guildFound && o.after.roleNames == s.roleNames
    ensures o.after.logChannelFound == s.logChannelFound
    ensures o.after.members.Keys == s.members.Keys
    // every other member is left alone; the member keeps its tag
    ensures forall m :: m in s.members && m != id ==> o.after.members[m] == s.members[m]
    ensures id in s.members ==> o.after.members[id].tag == s.members[id].tag
    // the only possible change is gaining the role the label resolves to
    ensures id in s.members ==>
              o.after.members[id].roles == s.members[id].roles ||
              (Resolve(roleType).Ok? &&
               o.after.members[id].roles == s.members[id].roles + {Resolve(roleType).value})
    // success exactly when every lookup succeeds, and then the member holds the role
    ensures o.result.Success() <==>
              s.guildFound && id in s.members &&
              Resolve(roleType).Ok? && Resolve(roleType).value in s.roleNames
    ensures o.result.Success() ==> Resolve(roleType).value in o.after.members[id].roles
    // the audit log only grows, by at most one attribution entry for this member and role
    ensures s.log <= o.after.log && |o.after.log| <= |s.log| + 1
    ensures o.after.log != s.log ==>
              Resolve(roleType).Ok? &&
              o.after.log == s.log + [LogEntry(id, Resolve(roleType).value, Attribution)]
    ensures o.result.Applied? ==> (o.after.log != s.log <==> s.logChannelFound)
    // a result other than a real change leaves the platform exactly as it was
    ensures !o.result.Applied? ==> o.after == s
  {
    if !s.guildFound then Outcome(s, Failed(GUILD_NOT_FOUND))
    else if id !in s.members then Outcome(s, Failed(GRANT_MEMBER_NOT_FOUND))
    else
      match Resolve(roleType)
      case Err(e) => Outcome(s, Failed(e))
      case Ok(roleId) =>
        var m := s.members[id];
        if roleId !in s.roleNames then Outcome(s, Failed(GRANT_ROLE_NOT_FOUND))
        else if roleId in m.roles then Outcome(s, Unchanged(ALREADY_GRANTED, Some(m.tag)))
        else
          var granted := s.(members := s.members[id := m.(roles := m.roles + {roleId})]);
          Outcome(Logged(granted, id, roleId, Attribution),
                  Applied(m.tag, s.roleNames[roleId], Attribution))
  }

  /** `removeVipRole`: the mirror image of `Grant`. */
  function Revoke(s: Server, id: MemberId, roleType: string): (o: Outcome)
    ensures o.after.guildFound == s.guildFound && o.after.roleNames == s.roleNames
    ensures o.after.logChannelFound == s.logChannelFound
    ensures o.after.members.Keys == s.members.Keys
    ensures forall m :: m in s.members && m != id ==> o.after.members[m] == s.members[m]
    ensures id in s.members ==> o.after.members[id].tag == s.members[id].tag
    // the only possible change is losing the role the label resolves to
    ensures id in s.members ==>
              o.after.members[id].roles == s.members[id].roles ||
              (Resolve(roleType).Ok? &&
               o.after.members[id].roles == s.members[id].roles - {Resolve(roleType).value})
    ensures o.result.Success() <==>
              s.guildFound && id in s.members &&
              Resolve(roleType).Ok? && Resolve(roleType).value in s.roleNames
    ensures o.result.Success() ==> Resolve(roleType).value !in o.after.members[id].roles
    ensures s.log <= o.after.log && |o.after.log| <= |s.log| + 1
    ensures o.after.log != s.log ==>
              Resolve(roleType).Ok? &&
              o.after.log == s.log + [LogEntry(id, Resolve(roleType).value, Suppression)]
    ensures o.result.Applied? ==> (o.after.log != s.log <==> s.logChannelFound)
    ensures !o.result.Applied? ==> o.after == s
  {
    if !s.guildFound then Outcome(s, Failed(GUILD_NOT_FOUND))
    else if id !in s.members then Outcome(s, Failed(REVOKE_MEMBER_NOT_FOUND))
    else
      match Resolve(roleType)
      case Err(e) => Outcome(s, Failed(e))
      case Ok(roleId) =>
        var m := s.members[id];
        if roleId !in s.roleNames then Outcome(s, Failed(REVOKE_ROLE_NOT_FOUND))
        else if roleId !in m.roles then Outcome(s, Unchanged(ALREADY_ABSENT, None))
        else
          var revoked := s.(members := s.members[id := m.(roles := m.roles - {roleId})]);
          Outcome(Logged(revoked, id, roleId, Suppression),
                  Applied(m.tag, s.roleNames[roleId], Suppression))
  }

  /** Every lookup of `id` and `roleType` succeeds, and the label resolves to `roleId`. */
  ghost predicate Resolvable(s: Server, id: MemberId, roleType: string, roleId: RoleId) {
    s.guildFound && id in s.members &&
    Resolve(roleType) == Ok(roleId) && roleId in s.roleNames
  }

  /** Granting a role already held: success with the member's tag, no change, no audit entry. */
  lemma GrantWhenHeld(s: Server, id: MemberId, roleType: string, roleId: RoleId)
    requires Resolvable(s, id, roleType, roleId) && roleId in s.members[id].roles
    ensures Grant(s, id, roleType) == Outcome(s, Unchanged(ALREADY_GRANTED, Some(s.members[id].tag)))
  {
  }

  /** Granting a role not held: exactly that role is added, and one attribution entry is posted. */
  lemma GrantWhenNotHeld(s: Server, id: MemberId, roleType: string, roleId: RoleId)
    requires Resolvable(s, id, roleType, roleId) && roleId !in s.members[id].roles
    ensures var o := Grant(s, id, roleType);
            && o.result == Applied(s.members[id].tag, s.roleNames[roleId], Attribution)
            && o.after.members[id].roles == s.members[id].roles + {roleId}
            && o.after.log == if s.logChannelFound
                              then s.log + [LogEntry(id, roleId, Attribution)]
                              else s.log
  {
  }

  /** Revoking a role not held: success, no change, no audit entry. */
  lemma RevokeWhenAbsent(s: Server, id: MemberId, roleType: string, roleId: RoleId)
    requires Resolvable(s, id, roleType, roleId) && roleId !in s.members[id].roles
    ensures Revoke(s, id, roleType) == Outcome(s, Unchanged(ALREADY_ABSENT, None))
  {
  }

  /** Revoking a held role: exactly that role is removed, and one suppression entry is posted. */
  lemma RevokeWhenHeld(s: Server, id: MemberId, roleType: string, roleId: RoleId)
    requires Resolvable(s, id, roleType, roleId) && roleId in s.members[id].roles
    ensures var o := Revoke(s, id, roleType);
            && o.result == Applied(s.members[id].tag, s.roleNames[roleId], Suppression)
            && o.after.members[id].roles == s.members[id].roles - {roleId}
            && o.after.log == if s.logChannelFound
                              then s.log + [LogEntry(id, roleId, Suppression)]
                              else s.log
  {
  }

  /**
   * An unknown member is reported before the label is looked at, so even an
   * unrecognised label yields "member not found"; nothing changes.
   */
  lemma UnknownMemberReportedFirst(s: Server, id: MemberId, roleType: string)
    requires s.guildFound && id !in s.members
    ensures Grant(s, id, roleType) == Outcome(s, Failed(GRANT_MEMBER_NOT_FOUND))
    ensures Revoke(s, id, roleType) == Outcome(s, Failed(REVOKE_MEMBER_NOT_FOUND))
  {
  }

  /** An unrecognised label on a known member fails with a message quoting the label. */
  lemma UnknownRoleTypeFails(s: Server, id: MemberId, roleType: string)
    requires s.guildFound && id in s.members && Resolve(roleType).Err?
    ensures Grant(s, id, roleType) == Outcome(s, Failed(UNKNOWN_ROLE_TYPE + roleType))
    ensures Revoke(s, id, roleType) == Outcome(s, Failed(UNKNOWN_ROLE_TYPE + roleType))
  {
  }

  /** A missing server or a missing role is a failed result; nothing changes. */
  lemma ConfigurationErrorsFail(s: Server, id: MemberId, roleType: string)
    requires !s.guildFound ||
             (id in s.members && Resolve(roleType).Ok? && Resolve(roleType).value !in s.roleNames)
    ensures Grant(s, id, roleType) ==
            Outcome(s, Failed(if s.guildFound then GRANT_ROLE_NOT_FOUND else GUILD_NOT_FOUND))
    ensures Revoke(s, id, roleType) ==
            Outcome(s, Failed(if s.guildFound then REVOKE_ROLE_NOT_FOUND else GUILD_NOT_FOUND))
  {
  }

  /** Granting twice is granting once: the second call changes nothing and reports success. */
  lemma GrantIsIdempotent(s: Server, id: MemberId, roleType: string)
    ensures var o := Grant(s, id, roleType);
            Grant(o.after, id, roleType).after == o.after &&
            Grant(o.after, id, roleType).result.Success() == o.result.Success()
  {
  }

  /** Revoking twice is revoking once. */
  lemma RevokeIsIdempotent(s: Server, id: MemberId, roleType: string)
    ensures var o := Revoke(s, id, roleType);
            Revoke(o.after, id, roleType).after == o.after &&
            Revoke(o.after, id, roleType).result.Success() == o.result.Success()
  {
  }

  /**
   * Revoke undoes a grant that changed something: every member's roles are back to
   * what they were, and the audit log holds the two entries in order.
   */
  lemma RevokeUndoesGrant(s: Server, id: MemberId, roleType: string)
    requires Grant(s, id, roleType).result.Applied?
    ensures var g := Grant(s, id, roleType);
            var r := Revoke(g.after, id, roleType);
            && r.result.Applied?
            && r.after.members == s.members
            && r.after.log == if s.logChannelFound
                              then s.log + [LogEntry(id, Resolve(roleType).value, Attribution),
                                            LogEntry(id, Resolve(roleType).value, Suppression)]
                              else s.log
  {
  }

  /** Grant undoes a revoke that changed something. */
  lemma GrantUndoesRevoke(s: Server, id: MemberId, roleType: string)
    requires Revoke(s, id, roleType).result.Applied?
    ensures var r := Revoke(s, id, roleType);
            var g := Grant(r.after, id, roleType);
            && g.result.Applied?
            && g.after.members == s.members
            && g.after.log == if s.logChannelFound
                              then s.log + [LogEntry(id, Resolve(roleType).value, Suppression),
                                            LogEntry(id, Resolve(roleType).value, Attribution)]
                              else s.log
  {
    var roleId := Resolve(roleType).value;
    var r := Revoke(s, id, roleType);
    RevokeWhenHeld(s, id, roleType, roleId);
    GrantWhenNotHeld(r.after, id, roleType, roleId);
    var g := Grant(r.after, id, roleType);
    assert g.after.members[id] == s.members[id];
    assert g.after.members == s.members;
  }

  /**
   * The platform as the two operations see it, updated in place: `member.roles.add`
   * and `member.roles.remove` change `members`, and `channel.send` appends to `log`.
   */
  class Platform {
    var guildFound: bool
    var members: map<MemberId, Member>
    var roleNames: map<RoleId, string>
    var logChannelFound: bool
    var log: seq<LogEntry>

    /** The abstract value of the platform. */
    function State(): Server
      reads this
    {
      Server(guildFound, members, roleNames, logChannelFound, log)
    }

    constructor (s: Server)
      ensures State() == s
    {
      guildFound := s.guildFound;
      members := s.members;
      roleNames := s.roleNames;
      logChannelFound := s.logChannelFound;
      log := s.log;
    }

    /** Best-effort audit post: a missing channel silently skips it. */
    method LogVipAction(id: MemberId, role: RoleId, action: ActionTag)
      modifies this
      ensures State() == Logged(old(State()), id, role, action)
    {
      if logChannelFound {
        log := log + [LogEntry(id, role, action)];
      }
    }

    method GiveVipRole(discordId: MemberId, roleType: string) returns (result: ActionResult)
      modifies this
      ensures Outcome(State(), result) == Grant(old(State()), discordId, roleType)
    {
      if !guildFound {
        return Failed(GUILD_NOT_FOUND);
      }
      if discordId !in members {
        return Failed(GRANT_MEMBER_NOT_FOUND);
      }
      var resolved := Resolve(roleType);
      if resolved.Err? {
        return Failed(resolved.message);
      }
      var roleId := resolved.value;
      if roleId !in roleNames {
        return Failed(GRANT_ROLE_NOT_FOUND);
      }
      var member := members[discordId];
      if roleId in member.roles {
        return Unchanged(ALREADY_GRANTED, Some(member.tag));
      }
      members := members[discordId := member.(roles := member.roles + {roleId})];
      LogVipAction(discordId, roleId, Attribution);
      result := Applied(member.tag, roleNames[roleId], Attribution);
    }

    method RemoveVipRole(discordId: MemberId, roleType: string) returns (result: ActionResult)
      modifies this
      ensures Outcome(State(), result) == Revoke(old(State()), discordId, roleType)
    {
      if !guildFound {
        return Failed(GUILD_NOT_FOUND);
      }
      if discordId !in members {
        return Failed(REVOKE_MEMBER_NOT_FOUND);
      }
      var resolved := Resolve(roleType);
      if resolved.Err? {
        return Failed(resolved.message);
      }
      var roleId := resolved.value;
      if roleId !in roleNames {
        return Failed(REVOKE_ROLE_NOT_FOUND);
      }
      var member := members[discordId];
      if roleId !in member.roles {
        return Unchanged(ALREADY_ABSENT, None);
      }
      members := members[discordId := member.(roles := member.roles - {roleId})];
      LogVipAction(discordId, roleId, Suppression);
      result := Applied(member.tag, roleNames[roleId], Suppression);
    }
  }
}
