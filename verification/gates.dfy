/** The three request guards. Each looks at the session's user id and,
    for the two staff guards, re-queries the admin and moderator tables on
    every request (no role cached at login is consulted). */
module Gates {
  import opened Schema

  /** A session is logged in when it carries a (truthy) Discord user id. */
  predicate LoggedIn(caller: Option<Identity>) {
    caller.Some? && caller.value.id != ""
  }

  /** `isAuthenticated`: 401 without a logged-in session, otherwise pass. */
  function RequireAuthenticated(caller: Option<Identity>): (c: Code)
    ensures c == Ok || c == Unauthorized
    ensures c == Ok <==> LoggedIn(caller)
  {
    if LoggedIn(caller) then Ok else Unauthorized
  }

  /** `isAdmin`: 401 without a session, 403 unless the user has an admin
      entry, otherwise pass. */
  function RequireAdmin(caller: Option<Identity>, admins: map<DiscordId, RoleEntry>): (c: Code)
    ensures c == Ok || c == Unauthorized || c == Forbidden
    ensures c == Unauthorized <==> !LoggedIn(caller)
    ensures c == Ok <==> LoggedIn(caller) && caller.value.id in admins
    ensures c == Ok ==> RequireAuthenticated(caller) == Ok
  {
    if !LoggedIn(caller) then Unauthorized
    else if caller.value.id in admins then Ok
    else Forbidden
  }

  /** `isModerator`: 401 without a session, 403 unless the user has a
      moderator entry or an admin entry, otherwise pass. Every caller the
      admin guard lets through, this guard lets through as well. */
  function RequireModerator(caller: Option<Identity>, admins: map<DiscordId, RoleEntry>,
                            moderators: map<DiscordId, RoleEntry>): (c: Code)
    ensures c == Ok || c == Unauthorized || c == Forbidden
    ensures c == Unauthorized <==> !LoggedIn(caller)
    ensures c == Ok <==> LoggedIn(caller) && (caller.value.id in moderators || caller.value.id in admins)
    ensures RequireAdmin(caller, admins) == Ok ==> c == Ok
    ensures c == Ok ==> RequireAuthenticated(caller) == Ok
  {
    if !LoggedIn(caller) then Unauthorized
    else if caller.value.id in moderators || caller.value.id in admins then Ok
    else Forbidden
  }
}
