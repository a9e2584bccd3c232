/** GET /api/my-applications: every application of the logged-in user,
    whatever its status, newest submission first. The database's
    find-and-sort is modelled by a loop that takes the documents one at a
    time and inserts each of the user's into a list kept in order. */
module History {
  import opened Schema
  import opened Gates

  /** A listed document together with its id. */
  type Entry = (AppId, Application)

  /** Submission timestamps never increase along the list. */
  ghost predicate NewestFirst(s: seq<Entry>) {
    forall i, j :: 0 <= i < j < |s| ==> s[i].1.timestamp >= s[j].1.timestamp
  }

  /** The documents among `keys` that belong to `user`, with their ids. */
  ghost function Owned(apps: map<AppId, Application>, user: DiscordId, keys: set<AppId>): set<Entry> {
    set k | k in keys && k in apps && apps[k].discordId == user :: (k, apps[k])
  }

  /** `s` lists each of the user's applications exactly once, newest first. */
  ghost predicate IsHistory(apps: map<AppId, Application>, user: DiscordId, s: seq<Entry>) {
    multiset(s) == multiset(Owned(apps, user, apps.Keys)) && NewestFirst(s)
  }

  /** Putting in front an entry no older than any of a newest-first list
      keeps the list newest first. */
  lemma PrependNewestFirst(x: Entry, s: seq<Entry>)
    requires NewestFirst(s)
    requires forall i :: 0 <= i < |s| ==> s[i].1.timestamp <= x.1.timestamp
    ensures NewestFirst([x] + s)
  {
  }

  /** Insert `e` into a newest-first list, keeping it newest first. */
  function InsertNewestFirst(s: seq<Entry>, e: Entry): (r: seq<Entry>)
    requires NewestFirst(s)
    ensures NewestFirst(r)
    ensures multiset(r) == multiset(s) + multiset{e}
    ensures |r| > 0 && (r[0] == e || (|s| > 0 && r[0] == s[0]))
    ensures forall i :: 0 <= i < |r| ==> r[i] == e || r[i] in s
  {
    if s == [] || s[0].1.timestamp <= e.1.timestamp then
      PrependNewestFirst(e, s);
      [e] + s
    else
      var rest := InsertNewestFirst(s[1..], e);
      assert forall i :: 0 <= i < |rest| ==> rest[i].1.timestamp <= s[0].1.timestamp;
      PrependNewestFirst(s[0], rest);
      assert s == [s[0]] + s[1..];
      [s[0]] + rest
  }

  method MyApplications(t: Tables, caller: Option<Identity>) returns (code: Code, mine: seq<Entry>)
    ensures code == RequireAuthenticated(caller)
    ensures code != Ok ==> mine == []
    ensures code == Ok ==> IsHistory(t.applications, caller.value.id, mine)
  {
    code := RequireAuthenticated(caller);
    mine := [];
    if code != Ok {
      return;
    }
    var user := caller.value.id;
    var apps := t.applications;
    var todo := apps.Keys;
    while todo != {}
      invariant todo <= apps.Keys
      invariant multiset(mine) == multiset(Owned(apps, user, apps.Keys - todo))
      invariant NewestFirst(mine)
      decreases todo
    {
      var k :| k in todo;
      ghost var before := Owned(apps, user, apps.Keys - todo);
      todo := todo - {k};
      if apps[k].discordId == user {
        assert Owned(apps, user, apps.Keys - todo) == before + {(k, apps[k])};
        assert (k, apps[k]) !in before;
        mine := InsertNewestFirst(mine, (k, apps[k]));
      } else {
        assert Owned(apps, user, apps.Keys - todo) == before;
      }
    }
  }
}
