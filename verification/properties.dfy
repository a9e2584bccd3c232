/** Properties that relate several requests: adds and removes undo each
    other, a second add conflicts, a deleted application is gone for good,
    a review may be repeated and the last one wins, moderators read but do
    not write, and the worked scenarios of the application lifecycle. */
module Properties {
  import opened Schema
  import opened Catalogue
  import opened Gates
  import opened Routes
  import opened History
  import opened Notification

  /** Removing an entry just added, by any admin allowed to remove it,
      gives back the tables from before the add. */
  lemma AddRoleThenRemoveRestores(t: Tables, which: RoleTable, adder: Option<Identity>, remover: Option<Identity>,
                                  discordId: DiscordId, username: Option<string>, now: nat)
    requires AddRole(t, which, adder, Some(discordId), username, now).code == Ok
    requires RequireAdmin(remover, AddRole(t, which, adder, Some(discordId), username, now).tables.admins) == Ok
    requires !(which == AdminTable && remover.value.id == discordId)
    ensures RemoveRole(AddRole(t, which, adder, Some(discordId), username, now).tables, which, remover, discordId)
            == Reply(Ok, t)
  {
  }

  lemma AddBlacklistThenRemoveRestores(t: Tables, adder: Option<Identity>, remover: Option<Identity>,
                                       discordId: DiscordId, username: Option<string>, reason: Option<string>,
                                       now: nat)
    requires AddBlacklist(t, adder, Some(discordId), username, reason, now).code == Ok
    requires RequireAdmin(remover, t.admins) == Ok
    ensures RemoveBlacklist(AddBlacklist(t, adder, Some(discordId), username, reason, now).tables, remover, discordId)
            == Reply(Ok, t)
  {
  }

  /** Adding the same id twice: the second add conflicts and changes nothing,
      so the id has one entry, the first one. */
  lemma AddRoleTwiceConflicts(t: Tables, which: RoleTable, first: Option<Identity>, second: Option<Identity>,
                              discordId: DiscordId, name1: Option<string>, name2: Option<string>, now1: nat, now2: nat)
    requires AddRole(t, which, first, Some(discordId), name1, now1).code == Ok
    requires RequireAdmin(second, AddRole(t, which, first, Some(discordId), name1, now1).tables.admins) == Ok
    requires Truthy(name2)
    ensures var t1 := AddRole(t, which, first, Some(discordId), name1, now1).tables;
            AddRole(t1, which, second, Some(discordId), name2, now2) == Reply(Conflict, t1)
  {
  }

  /** Once an admin has deleted an application, fetching it by id answers
      404 to every moderator or admin. */
  lemma DeleteThenFetchNotFound(t: Tables, admin: Option<Identity>, viewer: Option<Identity>, id: AppId)
    requires DeleteApplication(t, admin, Id(id)).code == Ok
    requires RequireModerator(viewer, t.admins, t.moderators) == Ok
    ensures FetchApplication(DeleteApplication(t, admin, Id(id)).tables, viewer, Id(id)) == Fetched(NotFound, None)
  {
  }

  /** Review has no "must be pending" guard: an application already decided
      can be reviewed again, and the second review's decision, reviewer,
      time and reason replace the first one's. */
  lemma ReReviewOverwrites(t: Tables, first: Option<Identity>, second: Option<Identity>, id: AppId,
                           status1: Option<string>, status2: Option<string>,
                           reason1: Option<string>, reason2: Option<string>, now1: nat, now2: nat)
    requires Review(t, first, Id(id), status1, reason1, now1).code == Ok
    requires RequireAdmin(second, t.admins) == Ok
    requires ParseDecision(status2).Some?
    ensures var t1 := Review(t, first, Id(id), status1, reason1, now1).tables;
            var r2 := Review(t1, second, Id(id), status2, reason2, now2);
            && t1.applications[id].status != Pending
            && r2.code == Ok
            && r2.tables.applications[id].status == ParseDecision(status2).value
            && r2.tables.applications[id].reviewedByDiscordId == Some(second.value.id)
            && r2.tables.applications[id].reviewedByUsername == Some(second.value.username)
            && r2.tables.applications[id].reviewTimestamp == Some(now2)
            && r2.tables.applications[id].reviewReason == OrNull(reason2)
  {
  }

  /** A moderator who is not an admin may list and fetch applications but
      may not review or delete them. */
  lemma ModeratorReadsButDoesNotWrite(t: Tables, caller: Option<Identity>, id: IdParam, status: Option<string>,
                                      reason: Option<string>, now: nat)
    requires LoggedIn(caller) && caller.value.id in t.moderators && caller.value.id !in t.admins
    ensures ListPending(t, caller).code == Ok
    ensures FetchApplication(t, caller, id).code != Forbidden
    ensures Review(t, caller, id, status, reason, now) == Reply(Forbidden, t)
    ensures DeleteApplication(t, caller, id) == Reply(Forbidden, t)
  {
  }

  /** A reviewed application leaves the pending list. */
  lemma ReviewedLeavesPendingList(t: Tables, admin: Option<Identity>, viewer: Option<Identity>, id: AppId,
                                  status: Option<string>, reason: Option<string>, now: nat)
    requires Review(t, admin, Id(id), status, reason, now).code == Ok
    ensures id !in ListPending(Review(t, admin, Id(id), status, reason, now).tables, viewer).entries
  {
  }

  /** The webhook message sent after a successful review reports the
      decision, the acting admin, and the reason exactly when one was given. */
  lemma ReviewNotificationReportsReview(t: Tables, admin: Option<Identity>, id: AppId, status: Option<string>,
                                        reason: Option<string>, now: nat, idText: string, dateText: string)
    requires Review(t, admin, Id(id), status, reason, now).code == Ok
    ensures var app := Review(t, admin, Id(id), status, reason, now).tables.applications[id];
            var decision := ParseDecision(status).value;
            var m := ReviewNotification(app, decision, idText, dateText);
            && m.embed.title == (if status == Some("accepted") then "Application Accepted!" else "Application Rejected!")
            && m.embed.fields[2].value == admin.value.username + " (" + admin.value.id + ")"
            && m.embed.fields[3].value == dateText
            && |m.embed.fields| == (if Truthy(reason) then 5 else 4)
            && (Truthy(reason) ==> m.embed.fields[4].value == reason.value)
  {
  }

  // ---------------------------------------------------------------------
  // Worked scenarios

  const U1: Identity := Identity("U1", "user-one", None)
  const A1: Identity := Identity("A1", "admin-one", None)
  const U2: Identity := Identity("U2", "user-two", None)
  const Answers: map<string, string> := map["experience" := "5 years", "why_us" := "passion"]

  /** A user with no applications submits a general application: it is
      stored pending with no review, and their history is exactly that one
      document. */
  lemma SubmitThenHistory(t: Tables, now: nat, s: seq<Entry>)
    requires WellFormed(t)
    requires U1.id !in t.blacklist
    requires forall k :: k in t.applications ==> t.applications[k].discordId != U1.id
    requires IsHistory(Submit(t, Some(U1), Some("general"), Some(Answers), now).tables.applications, U1.id, s)
    ensures var r := Submit(t, Some(U1), Some("general"), Some(Answers), now);
            && r.code == Ok
            && r.tables.applications[t.nextId].status == Pending
            && r.tables.applications[t.nextId].reviewTimestamp.None?
            && s == [(t.nextId, r.tables.applications[t.nextId])]
  {
    var r := Submit(t, Some(U1), Some("general"), Some(Answers), now);
    assert !HasPending(t.applications, U1.id);
    var apps := r.tables.applications;
    var e := (t.nextId, apps[t.nextId]);
    assert Owned(apps, U1.id, apps.Keys) == {e};
    assert multiset(s) == multiset{e};
    assert |s| == 1;
    assert s[0] in multiset(s);
  }

  /** With the type check as written, a user who may submit and sends
      applicationType "toString" gets 200 and a stored pending document of
      a type the catalogue does not have, so the store's invariant breaks;
      the corrected route refuses the same request with 400. */
  lemma InheritedTypeStored(t: Tables, answers: map<string, string>, now: nat)
    requires U1.id !in t.blacklist && !HasPending(t.applications, U1.id)
    ensures var r := SubmitAsWritten(t, Some(U1), Some("toString"), Some(answers), now);
            && r.code == Ok
            && r.tables.applications[t.nextId].applicationType == "toString"
            && r.tables.applications[t.nextId].status == Pending
            && "toString" !in ApplicationTypes
            && !WellFormed(r.tables)
    ensures Submit(t, Some(U1), Some("toString"), Some(answers), now) == Reply(BadRequest, t)
  {
    InheritedNameAccepted();
  }

  /** An admin blacklists a user for "spam"; that user's next submission is
      refused with 403 and a message ending in "spam", and nothing is stored. */
  lemma BlacklistedSubmitRefused(t: Tables, ty: Option<string>, answers: Option<map<string, string>>, now1: nat, now2: nat)
    requires A1.id in t.admins && U2.id !in t.blacklist
    requires ValidSubmission(ty, answers)
    ensures var t1 := AddBlacklist(t, Some(A1), Some(U2.id), Some(U2.username), Some("spam"), now1).tables;
            && Submit(t1, Some(U2), ty, answers, now2) == Reply(Forbidden, t1)
            && BlacklistedMessage(t1.blacklist[U2.id])[|BlacklistedPrefix|..] == "spam"
  {
  }
}
