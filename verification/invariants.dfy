/** The server as a sequential state machine: any request goes to one
    route handler, and a run is a sequence of requests handled one after
    the other. The store's invariant holds in every reachable state (so no
    user ever has two pending applications), every request changes at most
    one collection, and once there is an admin there always is one. */
module Invariants {
  import opened Schema
  import opened Catalogue
  import opened Gates
  import opened Routes

  /** One request to a state-changing route. */
  datatype Request =
    | SubmitRequest(caller: Option<Identity>, applicationType: Option<string>,
                    answers: Option<map<string, string>>, now: nat)
    | ReviewRequest(caller: Option<Identity>, id: IdParam, status: Option<string>,
                    reviewReason: Option<string>, now: nat)
    | DeleteRequest(caller: Option<Identity>, id: IdParam)
    | AddRoleRequest(which: RoleTable, caller: Option<Identity>, discordId: Option<string>,
                     username: Option<string>, now: nat)
    | RemoveRoleRequest(which: RoleTable, caller: Option<Identity>, target: DiscordId)
    | AddBlacklistRequest(caller: Option<Identity>, discordId: Option<string>, username: Option<string>,
                          reason: Option<string>, now: nat)
    | RemoveBlacklistRequest(caller: Option<Identity>, target: DiscordId)

  function Handle(t: Tables, req: Request): Reply {
    match req
    case SubmitRequest(c, ty, ans, now) => Submit(t, c, ty, ans, now)
    case ReviewRequest(c, id, st, reason, now) => Review(t, c, id, st, reason, now)
    case DeleteRequest(c, id) => DeleteApplication(t, c, id)
    case AddRoleRequest(w, c, d, u, now) => AddRole(t, w, c, d, u, now)
    case RemoveRoleRequest(w, c, d) => RemoveRole(t, w, c, d)
    case AddBlacklistRequest(c, d, u, reason, now) => AddBlacklist(t, c, d, u, reason, now)
    case RemoveBlacklistRequest(c, d) => RemoveBlacklist(t, c, d)
  }

  /** The tables after handling `reqs` in order. */
  function Run(t: Tables, reqs: seq<Request>): Tables
    decreases |reqs|
  {
    if reqs == [] then t else Run(Handle(t, reqs[0]).tables, reqs[1..])
  }

  lemma SubmitKeepsWellFormed(t: Tables, caller: Option<Identity>, applicationType: Option<string>,
                              answers: Option<map<string, string>>, now: nat)
    requires WellFormed(t)
    ensures WellFormed(Submit(t, caller, applicationType, answers, now).tables)
  {
  }

  lemma ReviewKeepsWellFormed(t: Tables, caller: Option<Identity>, id: IdParam, status: Option<string>,
                              reviewReason: Option<string>, now: nat)
    requires WellFormed(t)
    ensures WellFormed(Review(t, caller, id, status, reviewReason, now).tables)
  {
  }

  lemma HandleKeepsWellFormed(t: Tables, req: Request)
    requires WellFormed(t)
    ensures WellFormed(Handle(t, req).tables)
  {
  }

  lemma {:induction false} RunKeepsWellFormed(t: Tables, reqs: seq<Request>)
    requires WellFormed(t)
    ensures WellFormed(Run(t, reqs))
    decreases |reqs|
  {
    if reqs != [] {
      HandleKeepsWellFormed(t, reqs[0]);
      RunKeepsWellFormed(Handle(t, reqs[0]).tables, reqs[1..]);
    }
  }

  /** From the empty database, whatever requests arrive, no user ever has
      two pending applications. */
  lemma NeverTwoPending(seededAdmins: map<DiscordId, RoleEntry>, reqs: seq<Request>)
    ensures AtMostOnePending(Run(Initial(seededAdmins), reqs).applications)
  {
    RunKeepsWellFormed(Initial(seededAdmins), reqs);
  }

  /** How many of the four collections differ between `t` and `u` (the id
      allocator belongs to the applications collection). */
  function ChangedTables(t: Tables, u: Tables): nat {
    (if t.applications != u.applications || t.nextId != u.nextId then 1 else 0) +
    (if t.admins != u.admins then 1 else 0) +
    (if t.moderators != u.moderators then 1 else 0) +
    (if t.blacklist != u.blacklist then 1 else 0)
  }

  /** Every request changes at most one collection, and a refused request
      changes none. */
  lemma HandleChangesAtMostOneTable(t: Tables, req: Request)
    ensures ChangedTables(t, Handle(t, req).tables) <= 1
    ensures Handle(t, req).code != Ok ==> ChangedTables(t, Handle(t, req).tables) == 0
  {
  }

  /** A request never removes the last admin: the only removal of an admin
      is done by another admin, whose own entry the self-removal guard keeps. */
  lemma HandleKeepsAnAdmin(t: Tables, req: Request)
    requires t.admins != map[]
    ensures Handle(t, req).tables.admins != map[]
  {
  }

  lemma {:induction false} RunKeepsAnAdmin(t: Tables, reqs: seq<Request>)
    requires t.admins != map[]
    ensures Run(t, reqs).admins != map[]
    decreases |reqs|
  {
    if reqs != [] {
      HandleKeepsAnAdmin(t, reqs[0]);
      RunKeepsAnAdmin(Handle(t, reqs[0]).tables, reqs[1..]);
    }
  }

  // ---------------------------------------------------------------------
  // The server with the type check as written

  /** A request handled by the routes as written: only submission differs. */
  function HandleAsWritten(t: Tables, req: Request): Reply {
    match req
    case SubmitRequest(c, ty, ans, now) => SubmitAsWritten(t, c, ty, ans, now)
    case _ => Handle(t, req)
  }

  /** The tables after handling `reqs` in order by the routes as written. */
  function RunAsWritten(t: Tables, reqs: seq<Request>): Tables
    decreases |reqs|
  {
    if reqs == [] then t else RunAsWritten(HandleAsWritten(t, reqs[0]).tables, reqs[1..])
  }

  /** The submission as written keeps the store consistent: the lookup
      bug stores an uncatalogued type but never a second pending document. */
  lemma SubmitAsWrittenKeepsConsistent(t: Tables, caller: Option<Identity>, applicationType: Option<string>,
                                       answers: Option<map<string, string>>, now: nat)
    requires StoreConsistent(t)
    ensures StoreConsistent(SubmitAsWritten(t, caller, applicationType, answers, now).tables)
  {
  }

  lemma HandleAsWrittenKeepsConsistent(t: Tables, req: Request)
    requires StoreConsistent(t)
    ensures StoreConsistent(HandleAsWritten(t, req).tables)
  {
  }

  lemma {:induction false} RunAsWrittenKeepsConsistent(t: Tables, reqs: seq<Request>)
    requires StoreConsistent(t)
    ensures StoreConsistent(RunAsWritten(t, reqs))
    decreases |reqs|
  {
    if reqs != [] {
      HandleAsWrittenKeepsConsistent(t, reqs[0]);
      RunAsWrittenKeepsConsistent(HandleAsWritten(t, reqs[0]).tables, reqs[1..]);
    }
  }

  /** Even with the type check as written, no user ever has two pending
      applications. */
  lemma NeverTwoPendingAsWritten(seededAdmins: map<DiscordId, RoleEntry>, reqs: seq<Request>)
    ensures AtMostOnePending(RunAsWritten(Initial(seededAdmins), reqs).applications)
  {
    RunAsWrittenKeepsConsistent(Initial(seededAdmins), reqs);
  }
}
