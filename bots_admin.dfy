/** The administrative bot registry: a table of registered bots keyed by
    username, and the five handlers `/get`, `/getall`, `/add`, `/update` and
    `/delete` that read and change it.

    The administrator check that gates every handler is not part of this model:
    its verdict arrives as `Env.authorized`. Whether a query or a write of the
    store fails arrives as `Env.readFails` and `Env.writeFails`. */
module BotsAdmin {
  import opened Common

  /** A row of the registered-bot table. `id`, `createdAt` and `updatedAt`
      are assigned by the store and are opaque values here. */
  datatype Bot = Bot(id: int, username: string, developer: string, token: string,
                     createdAt: int, updatedAt: int)

  type Rows = map<string, Bot>

  /** Every row is stored under its own username, which makes the username
      the table's unique key. */
  predicate Keyed(rows: Rows)
  {
    forall u :: u in rows ==> rows[u].username == u
  }

  /** One element of the `bots` array sent by `/getall`. */
  datatype Entry = Entry(id: int, username: string, developer: string, token: string,
                         createdAt: int, updatedAt: int)

  function EntryOf(b: Bot): (e: Entry)
  {
    Entry(b.id, b.username, b.developer, b.token, b.createdAt, b.updatedAt)
  }

  /** The `data` object of a reply. In `Failure` the error object the store
      raised is left out; only the username that some replies carry is kept. */
  datatype Data =
    | NoData
    | Profile(username: string, developer: string, token: string)
    | Listing(bots: seq<Entry>)
    | Created(username: string, developer: string)
    | Named(username: string)
    | Changes(newDeveloper: Option<string>, newToken: Option<string>)
    | Failure(subject: Option<string>)

  datatype Reply = Reply(status: Status, message: string, data: Data)

  /** What the handler sends when its promise rejects with nobody catching it. */
  const Silent := Reply(NoResponse, "", NoData)

  /** The reply of the `catch` that `/get`, `/getall` and `/add` share. */
  const BotNotFound := Reply(NotFound, "Bot not found", Failure(None))

  /** The verdict of the administrator check and the outcome of the store
      calls the handler makes. */
  datatype Env = Env(authorized: bool, readFails: bool, writeFails: bool)

  /** `req.body.data` of `/get` and `/delete`. */
  datatype Lookup = Lookup(username: string)

  /** `req.body.data` of `/add`. */
  datatype Registration = Registration(username: string, developer: string, token: string)

  /** `req.body.data` of `/update`, whose `developer` and `token` may be left out. */
  datatype Revision = Revision(username: string, developer: Option<string>, token: Option<string>)

  // ---------------------------------------------------------------------------
  // The order `find({ order: { username: "ASC" } })` lists rows in: strictly
  // ascending usernames, compared character by character.

  /** `a` sorts strictly before `b`. */
  predicate Lt(a: string, b: string)
  {
    |b| > 0 && (|a| == 0 || a[0] < b[0] || (a[0] == b[0] && Lt(a[1..], b[1..])))
  }

  lemma {:induction false} LtIrreflexive(a: string)
    ensures !Lt(a, a)
  {
    if |a| > 0 {
      LtIrreflexive(a[1..]);
    }
  }

  lemma {:induction false} LtTransitive(a: string, b: string, c: string)
    requires Lt(a, b) && Lt(b, c)
    ensures Lt(a, c)
  {
    if |a| > 0 && a[0] == b[0] && b[0] == c[0] {
      LtTransitive(a[1..], b[1..], c[1..]);
    }
  }

  lemma {:induction false} LtTotal(a: string, b: string)
    requires a != b
    ensures Lt(a, b) || Lt(b, a)
  {
    if |a| > 0 && |b| > 0 && a[0] == b[0] {
      assert a == [a[0]] + a[1..] && b == [b[0]] + b[1..];
      LtTotal(a[1..], b[1..]);
    }
  }

  predicate Ascending(s: seq<Bot>)
  {
    forall i, j :: 0 <= i < j < |s| ==> Lt(s[i].username, s[j].username)
  }

  lemma AboveAll(x: string, s: seq<Bot>)
    requires Ascending(s) && |s| > 0 && Lt(x, s[0].username)
    ensures forall b :: b in s ==> Lt(x, b.username)
  {
    forall b | b in s
      ensures Lt(x, b.username)
    {
      var j :| 0 <= j < |s| && s[j] == b;
      if j > 0 {
        LtTransitive(x, s[0].username, b.username);
      }
    }
  }

  lemma HeadBelow(s: seq<Bot>, b: Bot, t: seq<Bot>)
    requires Ascending(s) && |s| > 0 && Lt(s[0].username, b.username)
    requires forall x :: x in t ==> x in s[1..] || x == b
    ensures forall x :: x in t ==> Lt(s[0].username, x.username)
  {
  }

  lemma Prepend(x: Bot, s: seq<Bot>)
    requires Ascending(s)
    requires forall b :: b in s ==> Lt(x.username, b.username)
    ensures Ascending([x] + s)
  {
  }

  /** Places `b` into an ascending listing that does not hold its username yet. */
  function Insert(s: seq<Bot>, b: Bot): (r: seq<Bot>)
    requires Ascending(s)
    requires forall x :: x in s ==> x.username != b.username
    ensures Ascending(r)
    ensures |r| == |s| + 1
    ensures forall x :: x in r <==> x in s || x == b
  {
    if s == [] then [b]
    else if Lt(b.username, s[0].username) then
      AboveAll(b.username, s);
      Prepend(b, s);
      [b] + s
    else
      LtTotal(b.username, s[0].username);
      var t := Insert(s[1..], b);
      HeadBelow(s, b, t);
      Prepend(s[0], t);
      assert s == [s[0]] + s[1..];
      [s[0]] + t
  }

  // ---------------------------------------------------------------------------
  // The change notes of `/update`.

  /** The notes `/update` pushes, developer first. */
  function Notes(developerChanged: bool, tokenChanged: bool): (notes: seq<string>)
  {
    (if developerChanged then ["Updated developer"] else [])
    + (if tokenChanged then ["Updated token"] else [])
  }

  /** The four messages `/update` can answer with. */
  lemma UpdateMessage(developerChanged: bool, tokenChanged: bool)
    ensures Join(Notes(developerChanged, tokenChanged), ", ") ==
      if developerChanged && tokenChanged then "Updated developer, Updated token"
      else if developerChanged then "Updated developer"
      else if tokenChanged then "Updated token"
      else ""
  {
  }

  // ---------------------------------------------------------------------------

  class BotTable {
    var rows: Rows

    ghost predicate Valid()
      reads this
    {
      Keyed(rows)
    }

    constructor ()
      ensures Valid() && rows == map[]
    {
      rows := map[];
    }

    /** `GET /get`: the bot with exactly the requested username. A missing
        `data` throws inside the `then` and is caught; an absent username
        leaves the `then` without a reply. */
    function Get(env: Env, data: Option<Lookup>): (r: Reply)
      reads this
      requires Valid()
      ensures r.status == NotFound <==> !env.authorized || data.None? || env.readFails
      ensures r.status == NotFound ==> r == BotNotFound
      ensures r.status == OK <==>
        env.authorized && data.Some? && !env.readFails && data.value.username in rows
      ensures r.status == OK ==>
        var u := data.value.username;
        r.message == "OK" && r.data == Profile(u, rows[u].developer, rows[u].token)
      ensures r.status == NoResponse <==>
        env.authorized && data.Some? && !env.readFails && data.value.username !in rows
      ensures r.status == NoResponse ==> r == Silent
    {
      if !env.authorized || data.None? || env.readFails then BotNotFound
      else if data.value.username in rows then
        var bot := rows[data.value.username];
        Reply(OK, "OK", Profile(bot.username, bot.developer, bot.token))
      else Silent
    }

    /** The store's `find` ordered by ascending username: every row once. */
    method FindOrdered() returns (bots: seq<Bot>)
      requires Valid()
      ensures Ascending(bots)
      ensures forall b :: b in bots ==> b.username in rows && rows[b.username] == b
      ensures forall u :: u in rows ==> rows[u] in bots
    {
      var remaining := rows.Keys;
      bots := [];
      while remaining != {}
        invariant remaining <= rows.Keys
        invariant Ascending(bots)
        invariant forall b :: b in bots ==>
          b.username in rows && rows[b.username] == b && b.username !in remaining
        invariant forall u :: u in rows && u !in remaining ==> rows[u] in bots
        decreases remaining
      {
        var u :| u in remaining;
        bots := Insert(bots, rows[u]);
        remaining := remaining - {u};
      }
    }

    /** `GET /getall`: one entry per stored bot, by ascending username. */
    method GetAll(env: Env) returns (reply: Reply)
      requires Valid()
      ensures !env.authorized || env.readFails ==> reply == BotNotFound
      ensures env.authorized && !env.readFails ==>
        reply.status == OK && reply.message == "OK" && reply.data.Listing?
      ensures reply.data.Listing? ==>
        var es := reply.data.bots;
        && (forall i, j :: 0 <= i < j < |es| ==> Lt(es[i].username, es[j].username))
        && (forall e :: e in es ==> e.username in rows && EntryOf(rows[e.username]) == e)
        && (forall u :: u in rows ==> EntryOf(rows[u]) in es)
    {
      if !env.authorized || env.readFails {
        return BotNotFound;
      }
      var bots := FindOrdered();
      var botData: seq<Entry> := [];
      for i := 0 to |bots|
        invariant |botData| == i
        invariant forall k :: 0 <= k < i ==> botData[k] == EntryOf(bots[k])
      {
        botData := botData + [EntryOf(bots[i])];
      }
      forall e | e in botData
        ensures e.username in rows && EntryOf(rows[e.username]) == e
      {
        var k :| 0 <= k < |botData| && botData[k] == e;
        assert bots[k] in bots;
      }
      forall u | u in rows
        ensures EntryOf(rows[u]) in botData
      {
        var k :| 0 <= k < |bots| && bots[k] == rows[u];
        assert botData[k] == EntryOf(rows[u]);
      }
      reply := Reply(OK, "OK", Listing(botData));
    }

    /** `PUT /add`: registers a new username; a known one is refused. A
        missing `data` throws inside the `then` and is caught. The store
        assigns the new row's `id` and timestamps. */
    method Add(env: Env, data: Option<Registration>, id: int, now: int) returns (reply: Reply)
      requires Valid()
      modifies this
      ensures Valid()
      ensures !env.authorized || data.None? || env.readFails ==>
        reply == BotNotFound && rows == old(rows)
      ensures env.authorized && data.Some? && !env.readFails ==>
        var d := data.value;
        if d.username in old(rows) then
          && reply == Reply(BadRequest, "Bot is already registered; please issue an update instead",
                            Named(d.username))
          && rows == old(rows)
        else if env.writeFails then
          reply == BotNotFound && rows == old(rows)
        else
          && reply == Reply(OK, "Successfully created new bot", Created(d.username, d.developer))
          && rows.Keys == old(rows).Keys + {d.username}
          && rows[d.username] == Bot(id, d.username, d.developer, d.token, now, now)
          && (forall u :: u in old(rows) ==> rows[u] == old(rows)[u])
    {
      if !env.authorized || data.None? || env.readFails {
        return BotNotFound;
      }
      var reqData := data.value;
      var username, developer, token := reqData.username, reqData.developer, reqData.token;
      if username in rows {
        return Reply(BadRequest, "Bot is already registered; please issue an update instead",
                     Named(username));
      }
      var newBot := Bot(id, username, developer, token, now, now);
      if env.writeFails {
        return BotNotFound;
      }
      rows := rows[username := newBot];
      reply := Reply(OK, "Successfully created new bot", Created(username, developer));
    }

    /** `POST /update`: overwrites each truthy field of the request and notes
        it. The handler has no `catch`, and it reads `bot.username` before its
        `!bot` guard, so a missing `data` or an unknown username throws and
        nothing is sent: the guard's BAD_REQUEST can never be reached. */
    method Update(env: Env, data: Option<Revision>) returns (reply: Reply)
      requires Valid()
      modifies this
      ensures Valid()
      ensures reply.status != BadRequest
      ensures !env.authorized || data.None? || env.readFails || data.value.username !in old(rows) ==>
        reply == Silent && rows == old(rows)
      ensures env.authorized && data.Some? && !env.readFails && data.value.username in old(rows) ==>
        var d := data.value;
        var was := old(rows)[d.username];
        if env.writeFails then
          && reply == Reply(InternalError, "Error saving changes to bot", Failure(Some(d.username)))
          && rows == old(rows)
        else
          && reply.status == OK
          && reply.message == Join(Notes(Truthy(d.developer), Truthy(d.token)), ", ")
          && reply.data == Changes(if Truthy(d.developer) then d.developer else None,
                                   if Truthy(d.token) then d.token else None)
          && rows.Keys == old(rows).Keys
          && rows[d.username] ==
               was.(developer := if Truthy(d.developer) then d.developer.value else was.developer,
                    token := if Truthy(d.token) then d.token.value else was.token)
          && (forall u :: u in old(rows) && u != d.username ==> rows[u] == old(rows)[u])
    {
      if !env.authorized || data.None? || env.readFails || data.value.username !in rows {
        return Silent;
      }
      var reqData := data.value;
      var bot := rows[reqData.username];
      var username := bot.username;
      var messages: seq<string> := [];
      var newDeveloper: Option<string> := None;
      var newToken: Option<string> := None;
      if Truthy(reqData.developer) {
        bot := bot.(developer := reqData.developer.value);
        messages := messages + ["Updated developer"];
        newDeveloper := reqData.developer;
      }
      if Truthy(reqData.token) {
        bot := bot.(token := reqData.token.value);
        messages := messages + ["Updated token"];
        newToken := reqData.token;
      }
      if env.writeFails {
        return Reply(InternalError, "Error saving changes to bot", Failure(Some(username)));
      }
      rows := rows[username := bot];
      reply := Reply(OK, Join(messages, ", "), Changes(newDeveloper, newToken));
    }

    /** `DELETE /delete`: removes the row of a known username. The handler
        has no `catch`, so a missing `data` throws and nothing is sent. */
    method Delete(env: Env, data: Option<Lookup>) returns (reply: Reply)
      requires Valid()
      modifies this
      ensures Valid()
      ensures !env.authorized || data.None? || env.readFails ==>
        reply == Silent && rows == old(rows)
      ensures env.authorized && data.Some? && !env.readFails ==>
        var u := data.value.username;
        if u !in old(rows) then
          reply == Reply(BadRequest, "Bot does not exist", Named(u)) && rows == old(rows)
        else if env.writeFails then
          reply == Reply(InternalError, "Error removing bot", Failure(Some(u))) && rows == old(rows)
        else
          && reply == Reply(OK, "Successfully removed bot", Named(u))
          && rows.Keys == old(rows).Keys - {u}
          && (forall v :: v in rows ==> rows[v] == old(rows)[v])
    {
      if !env.authorized || data.None? || env.readFails {
        return Silent;
      }
      var username := data.value.username;
      if username !in rows {
        return Reply(BadRequest, "Bot does not exist", Named(username));
      }
      if env.writeFails {
        return Reply(InternalError, "Error removing bot", Failure(Some(username)));
      }
      rows := rows - {username};
      reply := Reply(OK, "Successfully removed bot", Named(username));
    }
  }
}
