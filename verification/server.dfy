/** The server's persistent state and its state-changing route handlers,
    carried out in place on the four collections. Each handler is proved to
    give the reply and leave the tables that the matching function in
    module Routes describes, and to keep the store's invariant. */
module Server {
  import opened Schema
  import opened Catalogue
  import opened Gates
  import opened Routes

  class ApplicationServer {
    var applications: map<AppId, Application>
    var admins: map<DiscordId, RoleEntry>
    var moderators: map<DiscordId, RoleEntry>
    var blacklist: map<DiscordId, BlacklistEntry>
    var nextId: AppId

    /** The collections as one value. */
    function State(): Tables
      reads this
    {
      Tables(applications, admins, moderators, blacklist, nextId)
    }

    ghost predicate Valid()
      reads this
    {
      WellFormed(State())
    }

    /** An empty database whose admin collection was seeded by hand. */
    constructor (seededAdmins: map<DiscordId, RoleEntry>)
      ensures Valid()
      ensures State() == Initial(seededAdmins)
    {
      applications := map[];
      admins := seededAdmins;
      moderators := map[];
      blacklist := map[];
      nextId := 0;
    }

    /** POST /api/apply. On a 403 `message` is the blacklist message. */
    method Submit(caller: Option<Identity>, applicationType: Option<string>,
                  answers: Option<map<string, string>>, now: nat) returns (code: Code, message: string)
      requires Valid()
      modifies this
      ensures Valid()
      ensures code == Routes.Submit(old(State()), caller, applicationType, answers, now).code
      ensures State() == Routes.Submit(old(State()), caller, applicationType, answers, now).tables
      ensures code == Forbidden ==> message == BlacklistedMessage(old(blacklist)[caller.value.id])
    {
      message := "";
      code := RequireAuthenticated(caller);
      if code != Ok {
        return;
      }
      if !Truthy(applicationType) || answers.None? {
        code := BadRequest;
        return;
      }
      if !IsKnownType(applicationType.value) {
        code := BadRequest;
        return;
      }
      var user := caller.value;
      if user.id in blacklist {
        code := Forbidden;
        message := BlacklistedMessage(blacklist[user.id]);
        return;
      }
      if HasPending(applications, user.id) {
        code := Conflict;
        return;
      }
      var a := Application(user.id, user.username, user.avatar, applicationType.value, answers.value,
                           Pending, now, None, None, None, None);
      applications := applications[nextId := a];
      nextId := nextId + 1;
      code := Ok;
    }

    /** POST /api/applications/:id/status. */
    method Review(caller: Option<Identity>, id: IdParam, status: Option<string>,
                  reviewReason: Option<string>, now: nat) returns (code: Code)
      requires Valid()
      modifies this
      ensures Valid()
      ensures code == Routes.Review(old(State()), caller, id, status, reviewReason, now).code
      ensures State() == Routes.Review(old(State()), caller, id, status, reviewReason, now).tables
    {
      code := RequireAdmin(caller, admins);
      if code != Ok {
        return;
      }
      var decision := ParseDecision(status);
      if decision.None? {
        code := BadRequest;
        return;
      }
      if id.Malformed? {
        code := Internal;
        return;
      }
      if id.id !in applications {
        code := NotFound;
        return;
      }
      var reviewer := caller.value;
      applications := applications[id.id := applications[id.id].(
        status := decision.value,
        reviewedByDiscordId := Some(reviewer.id),
        reviewedByUsername := Some(reviewer.username),
        reviewTimestamp := Some(now),
        reviewReason := OrNull(reviewReason))];
      code := Ok;
    }

    /** DELETE /api/applications/:id. */
    method DeleteApplication(caller: Option<Identity>, id: IdParam) returns (code: Code)
      requires Valid()
      modifies this
      ensures Valid()
      ensures code == Routes.DeleteApplication(old(State()), caller, id).code
      ensures State() == Routes.DeleteApplication(old(State()), caller, id).tables
    {
      code := RequireAdmin(caller, admins);
      if code != Ok {
        return;
      }
      if id.Malformed? {
        code := Internal;
        return;
      }
      if id.id !in applications {
        code := NotFound;
        return;
      }
      applications := applications - {id.id};
      code := Ok;
    }

    /** POST /api/admins. */
    method AddAdmin(caller: Option<Identity>, discordId: Option<string>, username: Option<string>, now: nat)
      returns (code: Code)
      requires Valid()
      modifies this
      ensures Valid()
      ensures code == AddRole(old(State()), AdminTable, caller, discordId, username, now).code
      ensures State() == AddRole(old(State()), AdminTable, caller, discordId, username, now).tables
    {
      code := RequireAdmin(caller, admins);
      if code != Ok {
        return;
      }
      if !Truthy(discordId) || !Truthy(username) {
        code := BadRequest;
        return;
      }
      if discordId.value in admins {
        code := Conflict;
        return;
      }
      admins := admins[discordId.value := RoleEntry(username.value, caller.value.id, caller.value.username, now)];
      code := Ok;
    }

    /** DELETE /api/admins/:discordId. */
    method RemoveAdmin(caller: Option<Identity>, discordId: DiscordId) returns (code: Code)
      requires Valid()
      modifies this
      ensures Valid()
      ensures code == RemoveRole(old(State()), AdminTable, caller, discordId).code
      ensures State() == RemoveRole(old(State()), AdminTable, caller, discordId).tables
    {
      code := RequireAdmin(caller, admins);
      if code != Ok {
        return;
      }
      if caller.value.id == discordId {
        code := Forbidden;
        return;
      }
      if discordId !in admins {
        code := NotFound;
        return;
      }
      admins := admins - {discordId};
      code := Ok;
    }

    /** POST /api/moderators. */
    method AddModerator(caller: Option<Identity>, discordId: Option<string>, username: Option<string>, now: nat)
      returns (code: Code)
      requires Valid()
      modifies this
      ensures Valid()
      ensures code == AddRole(old(State()), ModeratorTable, caller, discordId, username, now).code
      ensures State() == AddRole(old(State()), ModeratorTable, caller, discordId, username, now).tables
    {
      code := RequireAdmin(caller, admins);
      if code != Ok {
        return;
      }
      if !Truthy(discordId) || !Truthy(username) {
        code := BadRequest;
        return;
      }
      if discordId.value in moderators {
        code := Conflict;
        return;
      }
      moderators := moderators[discordId.value := RoleEntry(username.value, caller.value.id, caller.value.username, now)];
      code := Ok;
    }

    /** DELETE /api/moderators/:discordId (no self-removal guard). */
    method RemoveModerator(caller: Option<Identity>, discordId: DiscordId) returns (code: Code)
      requires Valid()
      modifies this
      ensures Valid()
      ensures code == RemoveRole(old(State()), ModeratorTable, caller, discordId).code
      ensures State() == RemoveRole(old(State()), ModeratorTable, caller, discordId).tables
    {
      code := RequireAdmin(caller, admins);
      if code != Ok {
        return;
      }
      if discordId !in moderators {
        code := NotFound;
        return;
      }
      moderators := moderators - {discordId};
      code := Ok;
    }

    /** POST /api/blacklist. */
    method AddBlacklist(caller: Option<Identity>, discordId: Option<string>, username: Option<string>,
                        reason: Option<string>, now: nat) returns (code: Code)
      requires Valid()
      modifies this
      ensures Valid()
      ensures code == Routes.AddBlacklist(old(State()), caller, discordId, username, reason, now).code
      ensures State() == Routes.AddBlacklist(old(State()), caller, discordId, username, reason, now).tables
    {
      code := RequireAdmin(caller, admins);
      if code != Ok {
        return;
      }
      if !Truthy(discordId) || !Truthy(username) {
        code := BadRequest;
        return;
      }
      if discordId.value in blacklist {
        code := Conflict;
        return;
      }
      blacklist := blacklist[discordId.value :=
        BlacklistEntry(username.value, OrNull(reason), caller.value.id, caller.value.username, now)];
      code := Ok;
    }

    /** DELETE /api/blacklist/:discordId. */
    method RemoveBlacklist(caller: Option<Identity>, discordId: DiscordId) returns (code: Code)
      requires Valid()
      modifies this
      ensures Valid()
      ensures code == Routes.RemoveBlacklist(old(State()), caller, discordId).code
      ensures State() == Routes.RemoveBlacklist(old(State()), caller, discordId).tables
    {
      code := RequireAdmin(caller, admins);
      if code != Ok {
        return;
      }
      if discordId !in blacklist {
        code := NotFound;
        return;
      }
      blacklist := blacklist - {discordId};
      code := Ok;
    }
  }
}
