/** The documents the server stores and the values its route handlers exchange.

    The four MongoDB collections (applications, admins, moderators,
    blacklisted users) are modelled as maps keyed by their lookup key; the
    clock is an abstract `nat` and application ids are naturals handed out
    by a counter, so that a new id is never one already in use.
 */
module Schema {

  datatype Option<+T> = None | Some(value: T)

  type DiscordId = string
  type AppId = nat

  /** What a logged-in session carries: the Discord user id, the user name
      and the avatar URL (null when the Discord account has no avatar). */
  datatype Identity = Identity(id: DiscordId, username: string, avatar: Option<string>)

  /** JavaScript truthiness of an optional string field of a request body:
      a missing, null or empty field is falsy. */
  predicate Truthy(s: Option<string>) {
    s.Some? && s.value != ""
  }

  /** The stored value of `field || null`: the field itself when truthy, null otherwise. */
  function OrNull(s: Option<string>): (r: Option<string>)
    ensures r.Some? <==> Truthy(s)
    ensures r.Some? ==> r == s
    ensures r != Some("")
  {
    if Truthy(s) then s else None
  }

  datatype AppStatus = Pending | Accepted | Rejected

  /** The lower-case status text used in requests and in the stored documents. */
  function StatusName(s: AppStatus): string {
    match s
    case Pending => "pending"
    case Accepted => "accepted"
    case Rejected => "rejected"
  }

  /** An application document. `answers` is the question-id to answer map,
      stored as submitted; the reviewer fields stay null until a review. */
  datatype Application = Application(
    discordId: DiscordId,
    username: string,
    avatar: Option<string>,
    applicationType: string,
    answers: map<string, string>,
    status: AppStatus,
    timestamp: nat,
    reviewedByDiscordId: Option<DiscordId>,
    reviewedByUsername: Option<string>,
    reviewTimestamp: Option<nat>,
    reviewReason: Option<string>)

  /** An admin or moderator document (the two schemas are identical). */
  datatype RoleEntry = RoleEntry(
    username: string,
    addedByDiscordId: DiscordId,
    addedByUsername: string,
    timestamp: nat)

  /** A blacklisted-user document. */
  datatype BlacklistEntry = BlacklistEntry(
    username: string,
    reason: Option<string>,
    blacklistedByDiscordId: DiscordId,
    blacklistedByUsername: string,
    timestamp: nat)

  /** The whole persistent state: the four collections and the next free application id. */
  datatype Tables = Tables(
    applications: map<AppId, Application>,
    admins: map<DiscordId, RoleEntry>,
    moderators: map<DiscordId, RoleEntry>,
    blacklist: map<DiscordId, BlacklistEntry>,
    nextId: AppId)

  /** The HTTP status of a reply: 200, 401, 403, 400, 404, 409 and 500. */
  datatype Code = Ok | Unauthorized | Forbidden | BadRequest | NotFound | Conflict | Internal

  /** The `:id` path parameter: a well-formed document id, or text that does
      not parse as one (Mongoose raises a CastError for it). */
  datatype IdParam = Id(id: AppId) | Malformed

  /** The user has an application that is still pending. */
  predicate HasPending(apps: map<AppId, Application>, user: DiscordId) {
    exists k :: k in apps && apps[k].discordId == user && apps[k].status == Pending
  }

  /** No user has two pending applications. */
  ghost predicate AtMostOnePending(apps: map<AppId, Application>) {
    forall i, j ::
      (i in apps && j in apps && apps[i].status == Pending && apps[j].status == Pending &&
       apps[i].discordId == apps[j].discordId) ==> i == j
  }

  /** The reviewer fields and the review time are set exactly when the
      application has left `pending`, and a pending application has no reason. */
  ghost predicate ReviewFieldsConsistent(a: Application) {
    && (a.status == Pending <==> a.reviewedByDiscordId.None?)
    && (a.status == Pending <==> a.reviewedByUsername.None?)
    && (a.status == Pending <==> a.reviewTimestamp.None?)
    && (a.status == Pending ==> a.reviewReason.None?)
  }
}
