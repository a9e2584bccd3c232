/** The route handlers of the REST API as functions from the tables before
    a request to the reply and the tables after it. Each handler runs its
    guard first, then its early-return checks in the order the server runs
    them, and on success changes at most one table. A reply other than Ok
    never changes anything.

    The class in module Server carries out the state-changing handlers in
    place and is proved to agree with these functions.
 */
module Routes {
  import opened Schema
  import opened Catalogue
  import opened Gates

  /** The reply code of a state-changing route and the tables it leaves behind. */
  datatype Reply = Reply(code: Code, tables: Tables)

  /** The part of the invariant that does not depend on the type lookup:
      ids below the allocator, at most one pending application per user,
      and reviewer fields set exactly on decided applications. */
  ghost predicate StoreConsistent(t: Tables) {
    && (forall k :: k in t.applications ==> k < t.nextId)
    && AtMostOnePending(t.applications)
    && (forall k :: k in t.applications ==> ReviewFieldsConsistent(t.applications[k]))
  }

  /** The invariant every reachable state satisfies: the store is
      consistent and only catalogue types are stored. */
  ghost predicate WellFormed(t: Tables) {
    && StoreConsistent(t)
    && (forall k :: k in t.applications ==> IsKnownType(t.applications[k].applicationType))
  }

  /** The empty database the server starts from, with its seeded admins. */
  function Initial(admins: map<DiscordId, RoleEntry>): (t: Tables)
    ensures WellFormed(t)
    ensures t.admins == admins && t.applications == map[] && t.moderators == map[] && t.blacklist == map[]
  {
    Tables(map[], admins, map[], map[], 0)
  }

  // ---------------------------------------------------------------------
  // POST /api/apply

  /** The body names a catalogue type and carries answers. */
  predicate ValidSubmission(applicationType: Option<string>, answers: Option<map<string, string>>) {
    Truthy(applicationType) && answers.Some? && IsKnownType(applicationType.value)
  }

  /** `a` is the document a submission by `user` creates at time `now`:
      the user's identity, the type and answers as submitted, pending, and
      no reviewer fields. */
  ghost predicate IsNewSubmission(a: Application, user: Identity, applicationType: string,
                                  answers: map<string, string>, now: nat) {
    && a.discordId == user.id && a.username == user.username && a.avatar == user.avatar
    && a.applicationType == applicationType && a.answers == answers
    && a.status == Pending && a.timestamp == now
    && a.reviewedByDiscordId.None? && a.reviewedByUsername.None?
    && a.reviewTimestamp.None? && a.reviewReason.None?
  }

  function Submit(t: Tables, caller: Option<Identity>, applicationType: Option<string>,
                  answers: Option<map<string, string>>, now: nat): (r: Reply)
    ensures r.code == Ok || r.tables == t
    ensures r.code == Unauthorized <==> !LoggedIn(caller)
    ensures r.code == BadRequest <==> LoggedIn(caller) && !ValidSubmission(applicationType, answers)
    ensures r.code == Forbidden <==>
              LoggedIn(caller) && ValidSubmission(applicationType, answers) && caller.value.id in t.blacklist
    ensures r.code == Conflict <==>
              LoggedIn(caller) && ValidSubmission(applicationType, answers) && caller.value.id !in t.blacklist &&
              HasPending(t.applications, caller.value.id)
    ensures r.code == Ok || r.code == Unauthorized || r.code == BadRequest || r.code == Forbidden || r.code == Conflict
    ensures r.code == Ok ==>
              && t.nextId in r.tables.applications
              && r.tables == t.(applications := t.applications[t.nextId := r.tables.applications[t.nextId]],
                                nextId := t.nextId + 1)
              && IsNewSubmission(r.tables.applications[t.nextId], caller.value, applicationType.value,
                                 answers.value, now)
  {
    var gate := RequireAuthenticated(caller);
    if gate != Ok then Reply(gate, t)
    else if !Truthy(applicationType) || answers.None? then Reply(BadRequest, t)
    else if !IsKnownType(applicationType.value) then Reply(BadRequest, t)
    else if caller.value.id in t.blacklist then Reply(Forbidden, t)
    else if HasPending(t.applications, caller.value.id) then Reply(Conflict, t)
    else
      var user := caller.value;
      var a := Application(user.id, user.username, user.avatar, applicationType.value, answers.value,
                           Pending, now, None, None, None, None);
      Reply(Ok, t.(applications := t.applications[t.nextId := a], nextId := t.nextId + 1))
  }

  /** The route with the type check as the server writes it, which also
      lets inherited Object.prototype names through. It answers as Submit
      does for every other type name, and for an inherited name it stores
      a document whose type has no template. */
  function SubmitAsWritten(t: Tables, caller: Option<Identity>, applicationType: Option<string>,
                           answers: Option<map<string, string>>, now: nat): (r: Reply)
    ensures !(Truthy(applicationType) && applicationType.value in InheritedNames) ==>
              r == Submit(t, caller, applicationType, answers, now)
    ensures r.code == Ok || r.tables == t
    ensures r.code == Unauthorized <==> !LoggedIn(caller)
    ensures r.code == BadRequest <==>
              LoggedIn(caller) && !(Truthy(applicationType) && answers.Some? &&
                                    IsKnownTypeAsWritten(applicationType.value))
    ensures r.code == Forbidden <==>
              LoggedIn(caller) && Truthy(applicationType) && answers.Some? &&
              IsKnownTypeAsWritten(applicationType.value) && caller.value.id in t.blacklist
    ensures r.code == Conflict <==>
              LoggedIn(caller) && Truthy(applicationType) && answers.Some? &&
              IsKnownTypeAsWritten(applicationType.value) && caller.value.id !in t.blacklist &&
              HasPending(t.applications, caller.value.id)
    ensures r.code == Ok || r.code == Unauthorized || r.code == BadRequest || r.code == Forbidden || r.code == Conflict
    ensures r.code == Ok ==>
              && t.nextId in r.tables.applications
              && r.tables == t.(applications := t.applications[t.nextId := r.tables.applications[t.nextId]],
                                nextId := t.nextId + 1)
              && IsNewSubmission(r.tables.applications[t.nextId], caller.value, applicationType.value,
                                 answers.value, now)
  {
    var gate := RequireAuthenticated(caller);
    if gate != Ok then Reply(gate, t)
    else if !Truthy(applicationType) || answers.None? then Reply(BadRequest, t)
    else if !IsKnownTypeAsWritten(applicationType.value) then Reply(BadRequest, t)
    else if caller.value.id in t.blacklist then Reply(Forbidden, t)
    else if HasPending(t.applications, caller.value.id) then Reply(Conflict, t)
    else
      var user := caller.value;
      var a := Application(user.id, user.username, user.avatar, applicationType.value, answers.value,
                           Pending, now, None, None, None, None);
      Reply(Ok, t.(applications := t.applications[t.nextId := a], nextId := t.nextId + 1))
  }

  const BlacklistedPrefix: string := "You are currently blacklisted from submitting applications. Reason: "
  const NoReasonGiven: string := "No reason provided."

  /** The message of the 403 a blacklisted user gets on submitting: a fixed
      sentence followed by the stored reason, or by "No reason provided."
      when the reason is null or empty. */
  function BlacklistedMessage(e: BlacklistEntry): (m: string)
    ensures |m| > |BlacklistedPrefix| && m[..|BlacklistedPrefix|] == BlacklistedPrefix
    ensures Truthy(e.reason) ==> m[|BlacklistedPrefix|..] == e.reason.value
    ensures !Truthy(e.reason) ==> m[|BlacklistedPrefix|..] == NoReasonGiven
  {
    BlacklistedPrefix + (if Truthy(e.reason) then e.reason.value else NoReasonGiven)
  }

  // ---------------------------------------------------------------------
  // POST /api/applications/:id/status

  /** The requested status: only "accepted" and "rejected" are decisions. */
  function ParseDecision(status: Option<string>): (d: Option<AppStatus>)
    ensures d.Some? <==> status == Some("accepted") || status == Some("rejected")
    ensures d.Some? ==> d.value != Pending && status == Some(StatusName(d.value))
  {
    if status == Some("accepted") then Some(Accepted)
    else if status == Some("rejected") then Some(Rejected)
    else None
  }

  /** `after` is `before` with the decision, the reviewer's id and name,
      the review time and the reason (null when falsy) written over it;
      every other field, the status before included, plays no part. */
  ghost predicate IsReviewOf(after: Application, before: Application, decision: AppStatus,
                             reviewer: Identity, reason: Option<string>, now: nat) {
    after == before.(status := decision,
                     reviewedByDiscordId := Some(reviewer.id),
                     reviewedByUsername := Some(reviewer.username),
                     reviewTimestamp := Some(now),
                     reviewReason := OrNull(reason))
  }

  function Review(t: Tables, caller: Option<Identity>, id: IdParam, status: Option<string>,
                  reviewReason: Option<string>, now: nat): (r: Reply)
    ensures r.code == Ok || r.tables == t
    ensures r.code == Unauthorized <==> !LoggedIn(caller)
    ensures r.code == Forbidden <==> LoggedIn(caller) && caller.value.id !in t.admins
    ensures r.code == BadRequest <==> RequireAdmin(caller, t.admins) == Ok && ParseDecision(status).None?
    ensures r.code == Internal <==>
              RequireAdmin(caller, t.admins) == Ok && ParseDecision(status).Some? && id.Malformed?
    ensures r.code == NotFound <==>
              RequireAdmin(caller, t.admins) == Ok && ParseDecision(status).Some? && id.Id? &&
              id.id !in t.applications
    ensures r.code == Ok || r.code == Unauthorized || r.code == Forbidden || r.code == BadRequest ||
            r.code == Internal || r.code == NotFound
    ensures r.code == Ok ==>
              && id.Id? && id.id in t.applications && id.id in r.tables.applications
              && r.tables == t.(applications := t.applications[id.id := r.tables.applications[id.id]])
              && IsReviewOf(r.tables.applications[id.id], t.applications[id.id], ParseDecision(status).value,
                            caller.value, reviewReason, now)
  {
    var gate := RequireAdmin(caller, t.admins);
    if gate != Ok then Reply(gate, t)
    else if ParseDecision(status).None? then Reply(BadRequest, t)
    else if id.Malformed? then Reply(Internal, t)
    else if id.id !in t.applications then Reply(NotFound, t)
    else
      var before := t.applications[id.id];
      var after := before.(status := ParseDecision(status).value,
                           reviewedByDiscordId := Some(caller.value.id),
                           reviewedByUsername := Some(caller.value.username),
                           reviewTimestamp := Some(now),
                           reviewReason := OrNull(reviewReason));
      Reply(Ok, t.(applications := t.applications[id.id := after]))
  }

  // ---------------------------------------------------------------------
  // DELETE /api/applications/:id

  function DeleteApplication(t: Tables, caller: Option<Identity>, id: IdParam): (r: Reply)
    ensures r.code == Ok || r.tables == t
    ensures r.code == Unauthorized <==> !LoggedIn(caller)
    ensures r.code == Forbidden <==> LoggedIn(caller) && caller.value.id !in t.admins
    ensures r.code == Internal <==> RequireAdmin(caller, t.admins) == Ok && id.Malformed?
    ensures r.code == NotFound <==> RequireAdmin(caller, t.admins) == Ok && id.Id? && id.id !in t.applications
    ensures r.code == Ok || r.code == Unauthorized || r.code == Forbidden || r.code == Internal || r.code == NotFound
    ensures r.code == Ok ==>
              id.Id? && id.id in t.applications && r.tables == t.(applications := t.applications - {id.id})
  {
    var gate := RequireAdmin(caller, t.admins);
    if gate != Ok then Reply(gate, t)
    else if id.Malformed? then Reply(Internal, t)
    else if id.id !in t.applications then Reply(NotFound, t)
    else Reply(Ok, t.(applications := t.applications - {id.id}))
  }

  // ---------------------------------------------------------------------
  // GET /api/applications and GET /api/applications/:id

  /** The reply of a listing route: a code and, on Ok, the documents. */
  datatype Listed<K, V> = Listed(code: Code, entries: map<K, V>)

  /** The pending applications, for moderators and admins. */
  function ListPending(t: Tables, caller: Option<Identity>): (r: Listed<AppId, Application>)
    ensures r.code == RequireModerator(caller, t.admins, t.moderators)
    ensures r.code != Ok ==> r.entries == map[]
    ensures r.code == Ok ==>
              forall k :: k in r.entries <==> k in t.applications && t.applications[k].status == Pending
    ensures forall k :: k in r.entries ==> k in t.applications && r.entries[k] == t.applications[k]
  {
    var gate := RequireModerator(caller, t.admins, t.moderators);
    if gate != Ok then Listed(gate, map[])
    else Listed(Ok, map k | k in t.applications && t.applications[k].status == Pending :: t.applications[k])
  }

  /** The reply of fetch-by-id: a code and, on Ok, the document. */
  datatype Fetched = Fetched(code: Code, application: Option<Application>)

  /** One application by id, whatever its status, for moderators and admins. */
  function FetchApplication(t: Tables, caller: Option<Identity>, id: IdParam): (r: Fetched)
    ensures r.code == Unauthorized <==> !LoggedIn(caller)
    ensures r.code == Forbidden <==> LoggedIn(caller) && RequireModerator(caller, t.admins, t.moderators) != Ok
    ensures r.code == BadRequest <==> RequireModerator(caller, t.admins, t.moderators) == Ok && id.Malformed?
    ensures r.code == NotFound <==>
              RequireModerator(caller, t.admins, t.moderators) == Ok && id.Id? && id.id !in t.applications
    ensures r.code == Ok || r.code == Unauthorized || r.code == Forbidden || r.code == BadRequest ||
            r.code == NotFound
    ensures r.application.Some? <==> r.code == Ok
    ensures r.code == Ok ==> id.Id? && id.id in t.applications && r.application.value == t.applications[id.id]
  {
    var gate := RequireModerator(caller, t.admins, t.moderators);
    if gate != Ok then Fetched(gate, None)
    else if id.Malformed? then Fetched(BadRequest, None)
    else if id.id !in t.applications then Fetched(NotFound, None)
    else Fetched(Ok, Some(t.applications[id.id]))
  }

  // ---------------------------------------------------------------------
  // /api/admins and /api/moderators

  /** The two role tables share one schema and one set of routes; only the
      admin table has the self-removal guard. */
  datatype RoleTable = AdminTable | ModeratorTable

  function Roles(t: Tables, which: RoleTable): map<DiscordId, RoleEntry> {
    if which == AdminTable then t.admins else t.moderators
  }

  /** `t` with the chosen role table replaced by `m` and nothing else changed. */
  function WithRoles(t: Tables, which: RoleTable, m: map<DiscordId, RoleEntry>): (u: Tables)
    ensures Roles(u, which) == m
    ensures u.applications == t.applications && u.blacklist == t.blacklist && u.nextId == t.nextId
    ensures which == AdminTable ==> u.moderators == t.moderators
    ensures which == ModeratorTable ==> u.admins == t.admins
  {
    if which == AdminTable then t.(admins := m) else t.(moderators := m)
  }

  /** GET: the whole role table, for admins. */
  function ListRoles(t: Tables, which: RoleTable, caller: Option<Identity>): (r: Listed<DiscordId, RoleEntry>)
    ensures r.code == RequireAdmin(caller, t.admins)
    ensures r.code == Ok ==> r.entries == Roles(t, which)
    ensures r.code != Ok ==> r.entries == map[]
  {
    var gate := RequireAdmin(caller, t.admins);
    if gate != Ok then Listed(gate, map[]) else Listed(Ok, Roles(t, which))
  }

  /** POST: add a user to a role table, stamped with the acting admin. */
  function AddRole(t: Tables, which: RoleTable, caller: Option<Identity>, discordId: Option<string>,
                   username: Option<string>, now: nat): (r: Reply)
    ensures r.code == Ok || r.tables == t
    ensures r.code == Unauthorized <==> !LoggedIn(caller)
    ensures r.code == Forbidden <==> LoggedIn(caller) && caller.value.id !in t.admins
    ensures r.code == BadRequest <==>
              RequireAdmin(caller, t.admins) == Ok && (!Truthy(discordId) || !Truthy(username))
    ensures r.code == Conflict <==>
              RequireAdmin(caller, t.admins) == Ok && Truthy(discordId) && Truthy(username) &&
              discordId.value in Roles(t, which)
    ensures r.code == Ok || r.code == Unauthorized || r.code == Forbidden || r.code == BadRequest ||
            r.code == Conflict
    ensures r.code == Ok ==>
              && discordId.value !in Roles(t, which)
              && discordId.value in Roles(r.tables, which)
              && r.tables == WithRoles(t, which, Roles(t, which)[discordId.value := Roles(r.tables, which)[discordId.value]])
              && Roles(r.tables, which)[discordId.value]
                 == RoleEntry(username.value, caller.value.id, caller.value.username, now)
  {
    var gate := RequireAdmin(caller, t.admins);
    if gate != Ok then Reply(gate, t)
    else if !Truthy(discordId) || !Truthy(username) then Reply(BadRequest, t)
    else if discordId.value in Roles(t, which) then Reply(Conflict, t)
    else
      var e := RoleEntry(username.value, caller.value.id, caller.value.username, now);
      Reply(Ok, WithRoles(t, which, Roles(t, which)[discordId.value := e]))
  }

  /** DELETE: remove a user from a role table. An admin may not remove
      their own admin entry, and that guard comes before the lookup. */
  function RemoveRole(t: Tables, which: RoleTable, caller: Option<Identity>, discordId: DiscordId): (r: Reply)
    ensures r.code == Ok || r.tables == t
    ensures r.code == Unauthorized <==> !LoggedIn(caller)
    ensures r.code == Forbidden <==>
              LoggedIn(caller) && (caller.value.id !in t.admins || (which == AdminTable && caller.value.id == discordId))
    ensures r.code == NotFound <==>
              RequireAdmin(caller, t.admins) == Ok && !(which == AdminTable && caller.value.id == discordId) &&
              discordId !in Roles(t, which)
    ensures r.code == Ok || r.code == Unauthorized || r.code == Forbidden || r.code == NotFound
    ensures r.code == Ok ==>
              discordId in Roles(t, which) && r.tables == WithRoles(t, which, Roles(t, which) - {discordId})
    ensures RequireAdmin(caller, t.admins) == Ok ==> caller.value.id in r.tables.admins
  {
    var gate := RequireAdmin(caller, t.admins);
    if gate != Ok then Reply(gate, t)
    else if which == AdminTable && caller.value.id == discordId then Reply(Forbidden, t)
    else if discordId !in Roles(t, which) then Reply(NotFound, t)
    else Reply(Ok, WithRoles(t, which, Roles(t, which) - {discordId}))
  }

  // ---------------------------------------------------------------------
  // /api/blacklist

  /** GET: the whole blacklist, for admins. */
  function ListBlacklist(t: Tables, caller: Option<Identity>): (r: Listed<DiscordId, BlacklistEntry>)
    ensures r.code == RequireAdmin(caller, t.admins)
    ensures r.code == Ok ==> r.entries == t.blacklist
    ensures r.code != Ok ==> r.entries == map[]
  {
    var gate := RequireAdmin(caller, t.admins);
    if gate != Ok then Listed(gate, map[]) else Listed(Ok, t.blacklist)
  }

  /** POST: blacklist a user; a falsy reason is stored as null. */
  function AddBlacklist(t: Tables, caller: Option<Identity>, discordId: Option<string>,
                        username: Option<string>, reason: Option<string>, now: nat): (r: Reply)
    ensures r.code == Ok || r.tables == t
    ensures r.code == Unauthorized <==> !LoggedIn(caller)
    ensures r.code == Forbidden <==> LoggedIn(caller) && caller.value.id !in t.admins
    ensures r.code == BadRequest <==>
              RequireAdmin(caller, t.admins) == Ok && (!Truthy(discordId) || !Truthy(username))
    ensures r.code == Conflict <==>
              RequireAdmin(caller, t.admins) == Ok && Truthy(discordId) && Truthy(username) &&
              discordId.value in t.blacklist
    ensures r.code == Ok || r.code == Unauthorized || r.code == Forbidden || r.code == BadRequest ||
            r.code == Conflict
    ensures r.code == Ok ==>
              && discordId.value !in t.blacklist
              && discordId.value in r.tables.blacklist
              && r.tables == t.(blacklist := t.blacklist[discordId.value := r.tables.blacklist[discordId.value]])
              && r.tables.blacklist[discordId.value]
                 == BlacklistEntry(username.value, OrNull(reason), caller.value.id, caller.value.username, now)
  {
    var gate := RequireAdmin(caller, t.admins);
    if gate != Ok then Reply(gate, t)
    else if !Truthy(discordId) || !Truthy(username) then Reply(BadRequest, t)
    else if discordId.value in t.blacklist then Reply(Conflict, t)
    else
      var e := BlacklistEntry(username.value, OrNull(reason), caller.value.id, caller.value.username, now);
      Reply(Ok, t.(blacklist := t.blacklist[discordId.value := e]))
  }

  /** DELETE: lift a blacklisting. */
  function RemoveBlacklist(t: Tables, caller: Option<Identity>, discordId: DiscordId): (r: Reply)
    ensures r.code == Ok || r.tables == t
    ensures r.code == Unauthorized <==> !LoggedIn(caller)
    ensures r.code == Forbidden <==> LoggedIn(caller) && caller.value.id !in t.admins
    ensures r.code == NotFound <==> RequireAdmin(caller, t.admins) == Ok && discordId !in t.blacklist
    ensures r.code == Ok || r.code == Unauthorized || r.code == Forbidden || r.code == NotFound
    ensures r.code == Ok ==> discordId in t.blacklist && r.tables == t.(blacklist := t.blacklist - {discordId})
  {
    var gate := RequireAdmin(caller, t.admins);
    if gate != Ok then Reply(gate, t)
    else if discordId !in t.blacklist then Reply(NotFound, t)
    else Reply(Ok, t.(blacklist := t.blacklist - {discordId}))
  }
}
