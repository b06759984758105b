/** The bot-facing mirror API: a table of mirrored-video records, each owned
    by one registered bot, and the two handlers `/update` (an upsert keyed by
    post id and bot) and `/delete` (exact post id, url and bot), both behind a
    two-factor check: a shared secret and the bot's own token.

    The configured secret (`API_TOKEN` of the process environment) and the
    registered bots, in the order the store returns them, are parameters.
    Whether each store call fails arrives as a `Faults` value. */
module MirroredVideos {
  import opened Common
  import BotsAdmin

  /** The fixed tail of every success message. */
  const SuccessSuffix := "a-mirror-bot will update the associated comment shortly."

  /** A mirrored-video record. The owning bot is held by its primary key,
      which is what the store compares when a query names a bot. */
  datatype Mirror = Mirror(redditPostId: string, url: string, botId: int)

  /** `req.body.auth`: the shared secret and the bot's token. */
  datatype Auth = Auth(token: Option<string>, botToken: Option<string>)

  /** `req.body.data`. */
  datatype Payload = Payload(redditPostId: string, url: string)

  /** `req.body`. */
  datatype Body = Body(auth: Option<Auth>, data: Option<Payload>)

  /** Which store calls of one request fail: the registry query of the
      authorization, the mirror query, and the write. */
  datatype Faults = Faults(botLookupFails: bool, mirrorLookupFails: bool, writeFails: bool)

  /** How the promise of `authorized` settles. `Stalled`: it never settles,
      because a failing registry query rejects only the async executor, whose
      promise nobody holds. */
  datatype Authorization = Granted(bot: BotsAdmin.Bot) | Refused(reason: string) | Stalled

  datatype Reply = Reply(status: Status, message: string)

  const Silent := Reply(NoResponse, "")

  // ---------------------------------------------------------------------------
  // Authorization.

  predicate ParamsPresent(body: Option<Body>)
  {
    && body.Some?
    && body.value.auth.Some?
    && Truthy(body.value.auth.value.token)
    && Truthy(body.value.auth.value.botToken)
  }

  /** `RegisteredBot.findOne({ where: { token } })`: the first bot, in store
      order, holding this token. */
  function FirstWithToken(bots: seq<BotsAdmin.Bot>, token: string): (r: Option<nat>)
    ensures r.Some? ==> r.value < |bots| && bots[r.value].token == token
    ensures r.Some? ==> forall j :: 0 <= j < r.value ==> bots[j].token != token
    ensures r.None? <==> forall j :: 0 <= j < |bots| ==> bots[j].token != token
  {
    if bots == [] then None
    else if bots[0].token == token then Some(0)
    else match FirstWithToken(bots[1..], token)
      case None => None
      case Some(k) => Some(k + 1)
  }

  /** `authorized(req)`: the auth parameters, then the shared secret, then the
      bot's token, in that order. */
  function Authorize(body: Option<Body>, apiToken: Option<string>, bots: seq<BotsAdmin.Bot>,
                     lookupFails: bool): (r: Authorization)
    ensures !ParamsPresent(body) <==> r == Refused("Auth parameters not provided")
    ensures ParamsPresent(body) && apiToken != body.value.auth.value.token ==>
      r == Refused("Invalid access token")
    ensures r.Stalled? <==>
      ParamsPresent(body) && apiToken == body.value.auth.value.token && lookupFails
    ensures r.Granted? ==>
      && ParamsPresent(body) && apiToken == body.value.auth.value.token && !lookupFails
      && r.bot in bots && r.bot.token == body.value.auth.value.botToken.value
    ensures ParamsPresent(body) && apiToken == body.value.auth.value.token && !lookupFails ==>
      && ((exists b :: b in bots && b.token == body.value.auth.value.botToken.value) <==> r.Granted?)
      && (!r.Granted? ==> r == Refused("Invalid bot access token"))
  {
    if !ParamsPresent(body) then Refused("Auth parameters not provided")
    else
      var auth := body.value.auth.value;
      if apiToken != auth.token then Refused("Invalid access token")
      else if lookupFails then Stalled
      else match FirstWithToken(bots, auth.botToken.value)
        case Some(i) => Granted(bots[i])
        case None => Refused("Invalid bot access token")
  }

  // ---------------------------------------------------------------------------
  // Queries and the table effects of the two handlers.

  /** The `where` clause of a mirror query; every query names the bot. */
  datatype Query = ByPost(redditPostId: string, botId: int)
                 | Exact(redditPostId: string, url: string, botId: int)

  predicate Matches(m: Mirror, q: Query)
  {
    && m.redditPostId == q.redditPostId
    && m.botId == q.botId
    && (q.Exact? ==> m.url == q.url)
  }

  /** `MirroredVideo.findOne({ where })`: the first matching record. */
  function FindFirst(ms: seq<Mirror>, q: Query): (r: Option<nat>)
    ensures r.Some? ==> r.value < |ms| && Matches(ms[r.value], q)
    ensures r.Some? ==> forall j :: 0 <= j < r.value ==> !Matches(ms[j], q)
    ensures r.None? <==> forall j :: 0 <= j < |ms| ==> !Matches(ms[j], q)
  {
    if ms == [] then None
    else if Matches(ms[0], q) then Some(0)
    else match FindFirst(ms[1..], q)
      case None => None
      case Some(k) => Some(k + 1)
  }

  /** At most one record per (post id, bot). */
  predicate UniqueKeys(ms: seq<Mirror>)
  {
    forall i, j :: 0 <= i < |ms| && 0 <= j < |ms| && i != j ==>
      ms[i].redditPostId != ms[j].redditPostId || ms[i].botId != ms[j].botId
  }

  /** The table after a successful `/update`: the record of this post and bot
      gets the new url, or a new record is appended. */
  function Upserted(ms: seq<Mirror>, redditPostId: string, url: string, botId: int): (r: seq<Mirror>)
  {
    match FindFirst(ms, ByPost(redditPostId, botId))
    case Some(i) => ms[i := ms[i].(url := url)]
    case None => ms + [Mirror(redditPostId, url, botId)]
  }

  /** The table after a successful `/delete`: the matching record is gone. */
  function Removed(ms: seq<Mirror>, redditPostId: string, url: string, botId: int): (r: seq<Mirror>)
  {
    match FindFirst(ms, Exact(redditPostId, url, botId))
    case Some(i) => ms[..i] + ms[i + 1..]
    case None => ms
  }

  /** The records of one bot, in table order. */
  function Owned(ms: seq<Mirror>, botId: int): (r: seq<Mirror>)
  {
    if ms == [] then []
    else (if ms[0].botId == botId then [ms[0]] else []) + Owned(ms[1..], botId)
  }

  // ---------------------------------------------------------------------------
  // What the two table effects promise.

  /** An existing record keeps its place, post id and bot; only its url
      changes, and every other record stays as it was. */
  lemma UpsertExisting(ms: seq<Mirror>, redditPostId: string, url: string, botId: int, i: nat)
    requires i < |ms| && ms[i].redditPostId == redditPostId && ms[i].botId == botId
    requires forall j :: 0 <= j < i ==> ms[j].redditPostId != redditPostId || ms[j].botId != botId
    ensures var r := Upserted(ms, redditPostId, url, botId);
      && |r| == |ms|
      && r[i] == Mirror(redditPostId, url, botId)
      && (forall j :: 0 <= j < |ms| && j != i ==> r[j] == ms[j])
  {
  }

  /** Without a record for this post and bot, exactly one is appended. */
  lemma UpsertFresh(ms: seq<Mirror>, redditPostId: string, url: string, botId: int)
    requires forall j :: 0 <= j < |ms| ==> ms[j].redditPostId != redditPostId || ms[j].botId != botId
    ensures Upserted(ms, redditPostId, url, botId) == ms + [Mirror(redditPostId, url, botId)]
  {
  }

  /** The upsert never creates a second record for a (post id, bot). */
  lemma UpsertKeepsUnique(ms: seq<Mirror>, redditPostId: string, url: string, botId: int)
    requires UniqueKeys(ms)
    ensures UniqueKeys(Upserted(ms, redditPostId, url, botId))
  {
  }

  /** Repeating an upsert changes nothing more: the table does not grow. */
  lemma UpsertIdempotent(ms: seq<Mirror>, redditPostId: string, url: string, botId: int)
    ensures var once := Upserted(ms, redditPostId, url, botId);
      Upserted(once, redditPostId, url, botId) == once
  {
    var q := ByPost(redditPostId, botId);
    var once := Upserted(ms, redditPostId, url, botId);
    match FindFirst(ms, q)
    case Some(i) =>
      assert once == ms[i := ms[i].(url := url)];
      UpsertExisting(once, redditPostId, url, botId, i);
      assert Upserted(once, redditPostId, url, botId) == once;
    case None =>
      assert once == ms + [Mirror(redditPostId, url, botId)];
      UpsertExisting(once, redditPostId, url, botId, |ms|);
      assert Upserted(once, redditPostId, url, botId) == once;
  }

  lemma {:induction false} OwnedAppend(s: seq<Mirror>, t: seq<Mirror>, botId: int)
    ensures Owned(s + t, botId) == Owned(s, botId) + Owned(t, botId)
  {
    if s != [] {
      assert (s + t)[1..] == s[1..] + t;
      OwnedAppend(s[1..], t, botId);
    } else {
      assert s + t == t;
    }
  }

  /** Replacing a record of another bot by a record of another bot leaves
      this bot's records alone. */
  lemma OwnedReplaceOther(ms: seq<Mirror>, i: nat, m: Mirror, botId: int)
    requires i < |ms| && ms[i].botId != botId && m.botId != botId
    ensures Owned(ms[i := m], botId) == Owned(ms, botId)
  {
    assert ms == ms[..i] + [ms[i]] + ms[i + 1..];
    assert ms[i := m] == ms[..i] + [m] + ms[i + 1..];
    OwnedAppend(ms[..i] + [ms[i]], ms[i + 1..], botId);
    OwnedAppend(ms[..i], [ms[i]], botId);
    OwnedAppend(ms[..i] + [m], ms[i + 1..], botId);
    OwnedAppend(ms[..i], [m], botId);
    assert Owned([ms[i]], botId) == [] && Owned([m], botId) == [];
  }

  /** An upsert by one bot never touches the records of another. */
  lemma UpsertScoped(ms: seq<Mirror>, redditPostId: string, url: string, botId: int, other: int)
    requires other != botId
    ensures Owned(Upserted(ms, redditPostId, url, botId), other) == Owned(ms, other)
  {
    var m := Mirror(redditPostId, url, botId);
    match FindFirst(ms, ByPost(redditPostId, botId))
    case Some(i) =>
      OwnedReplaceOther(ms, i, ms[i].(url := url), other);
    case None =>
      OwnedAppend(ms, [m], other);
      assert Owned([m], other) == [];
  }

  /** A delete with no exact match leaves the table as it was; with one, it
      takes out exactly the first matching record. */
  lemma RemovedShape(ms: seq<Mirror>, redditPostId: string, url: string, botId: int)
    ensures var r := Removed(ms, redditPostId, url, botId);
      && ((forall j :: 0 <= j < |ms| ==> ms[j] != Mirror(redditPostId, url, botId)) ==> r == ms)
      && ((exists j :: 0 <= j < |ms| && ms[j] == Mirror(redditPostId, url, botId)) ==>
            |r| == |ms| - 1 && multiset(r) + multiset{Mirror(redditPostId, url, botId)} == multiset(ms))
  {
    var q := Exact(redditPostId, url, botId);
    match FindFirst(ms, q)
    case Some(i) =>
      assert ms[i] == Mirror(redditPostId, url, botId);
      assert ms == ms[..i] + [ms[i]] + ms[i + 1..];
    case None =>
      forall j | 0 <= j < |ms|
        ensures ms[j] != Mirror(redditPostId, url, botId)
      {
        assert !Matches(ms[j], q);
      }
  }

  /** While keys are unique, no record of the deleted triple remains. */
  lemma RemovedIsGone(ms: seq<Mirror>, redditPostId: string, url: string, botId: int)
    requires UniqueKeys(ms)
    ensures var r := Removed(ms, redditPostId, url, botId);
      UniqueKeys(r) && forall j :: 0 <= j < |r| ==> r[j] != Mirror(redditPostId, url, botId)
  {
    var q := Exact(redditPostId, url, botId);
    var r := Removed(ms, redditPostId, url, botId);
    match FindFirst(ms, q)
    case Some(i) =>
      assert forall j :: 0 <= j < |r| ==> r[j] == if j < i then ms[j] else ms[j + 1];
      forall j | 0 <= j < |r|
        ensures r[j] != Mirror(redditPostId, url, botId)
      {
        var k := if j < i then j else j + 1;
        assert r[j] == ms[k] && k != i;
      }
    case None =>
      forall j | 0 <= j < |ms|
        ensures ms[j] != Mirror(redditPostId, url, botId)
      {
        assert !Matches(ms[j], q);
      }
  }

  /** A delete by one bot never touches the records of another. */
  lemma RemovedScoped(ms: seq<Mirror>, redditPostId: string, url: string, botId: int, other: int)
    requires other != botId
    ensures Owned(Removed(ms, redditPostId, url, botId), other) == Owned(ms, other)
  {
    match FindFirst(ms, Exact(redditPostId, url, botId))
    case Some(i) =>
      assert ms == ms[..i] + [ms[i]] + ms[i + 1..];
      OwnedAppend(ms[..i] + [ms[i]], ms[i + 1..], other);
      OwnedAppend(ms[..i], [ms[i]], other);
      OwnedAppend(ms[..i], ms[i + 1..], other);
      assert Owned([ms[i]], other) == [];
    case None =>
  }

  // ---------------------------------------------------------------------------

  class MirrorTable {
    var mirrors: seq<Mirror>

    constructor ()
      ensures mirrors == []
    {
      mirrors := [];
    }

    /** `updateVideo`: sets the url of the record at `i` and saves it. */
    method UpdateVideo(i: nat, url: string)
      requires i < |mirrors|
      modifies this
      ensures mirrors == old(mirrors)[i := old(mirrors)[i].(url := url)]
    {
      var mirroredVideo := mirrors[i];
      mirroredVideo := mirroredVideo.(url := url);
      mirrors := mirrors[i := mirroredVideo];
    }

    /** `createVideo`: builds a record and saves it, unless the save fails. */
    method CreateVideo(redditPostId: string, url: string, botId: int, saveFails: bool)
      modifies this
      ensures mirrors == if saveFails then old(mirrors)
                         else old(mirrors) + [Mirror(redditPostId, url, botId)]
    {
      var newMirroredVideo := Mirror(redditPostId, url, botId);
      if !saveFails {
        mirrors := mirrors + [newMirroredVideo];
      }
    }

    /** `POST /update`. The `createVideo` call is not awaited, so a failing
        save still gets the success reply. */
    method Update(body: Option<Body>, apiToken: Option<string>, bots: seq<BotsAdmin.Bot>,
                  faults: Faults) returns (reply: Reply)
      modifies this
      ensures UniqueKeys(old(mirrors)) ==> UniqueKeys(mirrors)
      ensures var a := Authorize(body, apiToken, bots, faults.botLookupFails);
        a.Refused? ==> reply == Reply(Unauthorized, a.reason) && mirrors == old(mirrors)
      ensures var a := Authorize(body, apiToken, bots, faults.botLookupFails);
        a.Stalled? ==> reply == Silent && mirrors == old(mirrors)
      ensures var a := Authorize(body, apiToken, bots, faults.botLookupFails);
        a.Granted? && (body.value.data.None? || faults.mirrorLookupFails) ==>
          && reply == (if body.value.data.None? then Silent
                       else Reply(InternalError, "An error occurred trying to retrieve your mirror's data"))
          && mirrors == old(mirrors)
      ensures var a := Authorize(body, apiToken, bots, faults.botLookupFails);
        a.Granted? && body.value.data.Some? && !faults.mirrorLookupFails ==>
          var d := body.value.data.value;
          if FindFirst(old(mirrors), ByPost(d.redditPostId, a.bot.id)).Some? then
            if faults.writeFails then
              && reply == Reply(InternalError, "An error occurred updating your mirror in the database")
              && mirrors == old(mirrors)
            else
              && reply == Reply(OK, "Successfully updated mirror in database. " + SuccessSuffix)
              && mirrors == Upserted(old(mirrors), d.redditPostId, d.url, a.bot.id)
          else
            && reply == Reply(OK, "Successfully created mirror in database. " + SuccessSuffix)
            && mirrors == if faults.writeFails then old(mirrors)
                          else Upserted(old(mirrors), d.redditPostId, d.url, a.bot.id)
    {
      var auth := Authorize(body, apiToken, bots, faults.botLookupFails);
      if auth.Refused? {
        return Reply(Unauthorized, auth.reason);
      }
      if auth.Stalled? {
        return Silent;
      }
      var bot := auth.bot;
      if body.value.data.None? {
        return Silent;
      }
      var data := body.value.data.value;
      if faults.mirrorLookupFails {
        return Reply(InternalError, "An error occurred trying to retrieve your mirror's data");
      }
      ghost var before := mirrors;
      var mirroredVideo := FindFirst(mirrors, ByPost(data.redditPostId, bot.id));
      if mirroredVideo.Some? {
        if faults.writeFails {
          return Reply(InternalError, "An error occurred updating your mirror in the database");
        }
        UpdateVideo(mirroredVideo.value, data.url);
        if UniqueKeys(before) {
          UpsertKeepsUnique(before, data.redditPostId, data.url, bot.id);
        }
        reply := Reply(OK, "Successfully updated mirror in database. " + SuccessSuffix);
      } else {
        CreateVideo(data.redditPostId, data.url, bot.id, faults.writeFails);
        if UniqueKeys(before) {
          UpsertKeepsUnique(before, data.redditPostId, data.url, bot.id);
        }
        reply := Reply(OK, "Successfully created mirror in database. " + SuccessSuffix);
      }
    }

    /** `DELETE /delete`. The `remove` call is not awaited, so a failing
        removal still gets the success reply. */
    method Delete(body: Option<Body>, apiToken: Option<string>, bots: seq<BotsAdmin.Bot>,
                  faults: Faults) returns (reply: Reply)
      modifies this
      ensures UniqueKeys(old(mirrors)) ==> UniqueKeys(mirrors)
      ensures var a := Authorize(body, apiToken, bots, faults.botLookupFails);
        a.Refused? ==> reply == Reply(Unauthorized, a.reason) && mirrors == old(mirrors)
      ensures var a := Authorize(body, apiToken, bots, faults.botLookupFails);
        a.Stalled? ==> reply == Silent && mirrors == old(mirrors)
      ensures var a := Authorize(body, apiToken, bots, faults.botLookupFails);
        a.Granted? && (body.value.data.None? || faults.mirrorLookupFails) ==>
          && reply == (if body.value.data.None? then Silent
                       else Reply(InternalError, "An error occurred trying to retrieve your mirror's data"))
          && mirrors == old(mirrors)
      ensures var a := Authorize(body, apiToken, bots, faults.botLookupFails);
        a.Granted? && body.value.data.Some? && !faults.mirrorLookupFails ==>
          var d := body.value.data.value;
          if FindFirst(old(mirrors), Exact(d.redditPostId, d.url, a.bot.id)).Some? then
            && reply == Reply(OK, "Successfully removed mirror from database. " + SuccessSuffix)
            && mirrors == if faults.writeFails then old(mirrors)
                          else Removed(old(mirrors), d.redditPostId, d.url, a.bot.id)
          else
            reply == Reply(NotFound, "Mirror not found in database") && mirrors == old(mirrors)
    {
      var auth := Authorize(body, apiToken, bots, faults.botLookupFails);
      if auth.Refused? {
        return Reply(Unauthorized, auth.reason);
      }
      if auth.Stalled? {
        return Silent;
      }
      var bot := auth.bot;
      if body.value.data.None? {
        return Silent;
      }
      var data := body.value.data.value;
      if faults.mirrorLookupFails {
        return Reply(InternalError, "An error occurred trying to retrieve your mirror's data");
      }
      ghost var before := mirrors;
      var mirroredVideo := FindFirst(mirrors, Exact(data.redditPostId, data.url, bot.id));
      if mirroredVideo.Some? {
        if !faults.writeFails {
          var i := mirroredVideo.value;
          mirrors := mirrors[..i] + mirrors[i + 1..];
          if UniqueKeys(before) {
            RemovedIsGone(before, data.redditPostId, data.url, bot.id);
          }
        }
        reply := Reply(OK, "Successfully removed mirror from database. " + SuccessSuffix);
      } else {
        reply := Reply(NotFound, "Mirror not found in database");
      }
    }
  }
}
