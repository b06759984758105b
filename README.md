# Bot registry and mirror records, modelled in Dafny

This project models the two request handlers at the centre of the
a-centralized-mirror service.

- **The administrative bot registry** (`src/controllers/admin/api.bots.ts`) is a
  table of registered bots. Each row holds a `username`, a `developer` and a
  `token`; the username is the key. Five handlers work on it: `/get`,
  `/getall`, `/add`, `/update` and `/delete`.
- **The bot-facing mirror API** (`src/controllers/bot/api.mirroredvideos.ts`) is
  a table of mirrored-video records `(redditPostId, url, bot)`.
  - `/update` is an upsert keyed by `(redditPostId, bot)`.
  - `/delete` removes the record that matches `(redditPostId, url, bot)` exactly.
  - Both first pass `authorized`, a two-factor check: a shared secret, then
    the token of a registered bot.

The store's `findOne`, `find`, `save` and `remove` become lookups and updates
of a `map` (bots) or a `seq` (mirrors), held in a class field that the handler
methods reassign. Each handler returns a reply `(status, message, data)`.
`NoResponse` stands for a request the handler never answers.

Files:

- `common.dfy` (module `Common`): `Status`, `Option`, JavaScript truthiness of a
  string field, and `Array.prototype.join`.
- `bots_admin.dfy` (module `BotsAdmin`): the `Bot` row, the reply types, the
  store's ascending username order, and class `BotTable` with the five
  handlers.
- `mirrored_videos.dfy` (module `MirroredVideos`): `Authorize`, the mirror
  queries, the two table effects `Upserted` and `Removed` with their lemmas,
  and class `MirrorTable` with `updateVideo`, `createVideo` and the two
  handlers.
- `scenarios.dfy` (module `Scenarios`): client methods that chain requests.

Outside inputs are parameters:

- the verdict of the administrator check: `BotsAdmin.Env.authorized`;
- whether each store call fails: `BotsAdmin.Env`, `MirroredVideos.Faults`;
- the configured shared secret, `process.env.API_TOKEN`: `apiToken`;
- the registered bots, in the order the store returns them: `bots`;
- the store-assigned `id` and timestamp of a new bot.

The model follows the code as written; in particular:

- `/add` of a known username answers BAD_REQUEST.
- `/get` of an unknown username sends nothing. NOT_FOUND comes only from the
  `catch`: a rejected administrator check or a failing store call.
- `/update` of an unknown username sends nothing. `bot.username` is read at
  line 129, before the `!bot` guard at line 134, so the guard's BAD_REQUEST can
  never be reached. `BotTable.Update` states this as `reply.status != BadRequest`.
- `/update` and `/delete` of the admin API have no `catch`. A rejected
  administrator check, or a failing lookup, leaves them without a reply of
  their own.
- The bot-token check takes the first bot holding that token. It does not
  demand that exactly one bot holds it.
- If the registry query inside `authorized` fails, its promise never settles,
  so `/update` and `/delete` of the mirror API never answer (`Stalled`).
- `createVideo(...)` and `mirroredVideo.remove()` are not awaited. A failing
  save or removal still gets the success reply, and the table is unchanged.
  The two "error creating" and "error trying to remove" replies can never be
  sent.

## Model

| member | source | states |
|---|---|---|
| `Common.JoinPush` | src/controllers/admin/api.bots.ts:143-160 | pushing one more note onto `messages` extends `messages.join(", ")` by the separator and that note, or starts it when `messages` was empty |
| `BotsAdmin.UpdateMessage` | src/controllers/admin/api.bots.ts:143-160 | the `/update` message is "Updated developer, Updated token", "Updated developer", "Updated token" or "", according to which of the two fields changed, developer first |
| `BotsAdmin.LtIrreflexive` | src/controllers/admin/api.bots.ts:41-45 | no username sorts before itself in the store's ascending order |
| `BotsAdmin.LtTransitive` | src/controllers/admin/api.bots.ts:41-45 | the ascending username order is transitive |
| `BotsAdmin.LtTotal` | src/controllers/admin/api.bots.ts:41-45 | of two different usernames, one sorts before the other, so the listing order is total |
| `BotsAdmin.Insert` | src/controllers/admin/api.bots.ts:41-45 | placing a bot with a new username into an ascending listing keeps it ascending, adds exactly that bot and loses none |
| `BotsAdmin.BotTable.Get` | src/controllers/admin/api.bots.ts:9-36 | OK with exactly the stored username, developer and token if and only if the check passes, the lookup succeeds and the username is stored; nothing is sent if and only if the username is absent; NOT_FOUND "Bot not found" if and only if the check fails, the request has no `data` or the lookup fails |
| `BotsAdmin.BotTable.FindOrdered` | src/controllers/admin/api.bots.ts:41-45 | the rows in strictly ascending username order: every listed bot is the stored row of its username, and every stored row is listed |
| `BotsAdmin.BotTable.GetAll` | src/controllers/admin/api.bots.ts:38-76 | OK with one entry per stored bot copying id, username, developer, token, createdAt and updatedAt, in strictly ascending username order; NOT_FOUND "Bot not found" when the check or the listing fails |
| `BotsAdmin.BotTable.Add` | src/controllers/admin/api.bots.ts:78-120 | a known username gives BAD_REQUEST echoing it and leaves the table unchanged; a fresh one inserts exactly one row with the given username, developer and token, leaves every other row alone, and answers with `{username, developer}` and no token; a failing check, a missing `data`, or a failing lookup or save gives NOT_FOUND and leaves the table unchanged |
| `BotsAdmin.BotTable.Update` | src/controllers/admin/api.bots.ts:122-175 | overwrites the developer only when a truthy developer is supplied and the token only when a truthy token is supplied; keeps the username and every other row; the message joins the notes of the changed fields; `data` holds `newDeveloper` and `newToken` exactly for the changed fields; an unknown username, a missing `data`, a failing check or a failing lookup sends nothing and changes nothing; a failing save gives INTERNAL_SERVER_ERROR and changes nothing; never BAD_REQUEST |
| `BotsAdmin.BotTable.Delete` | src/controllers/admin/api.bots.ts:177-214 | an absent username gives BAD_REQUEST "Bot does not exist" and leaves the table unchanged; a present one removes exactly that row and answers OK with the username; a failing removal gives INTERNAL_SERVER_ERROR and changes nothing; a failing check, a missing `data` or a failing lookup sends nothing and changes nothing |
| `MirroredVideos.FirstWithToken` | src/controllers/bot/api.mirroredvideos.ts:36-42 | the first registered bot, in store order, whose token equals the bot token; none exactly when no bot holds that token |
| `MirroredVideos.Authorize` | src/controllers/bot/api.mirroredvideos.ts:20-48 | "Auth parameters not provided" exactly when `body`, `auth`, `auth.token` or `auth.botToken` is missing or falsy; otherwise "Invalid access token" when the secret differs from the configured one; with the right secret, success with a registered bot holding the bot token exactly when such a bot exists, and "Invalid bot access token" otherwise; it never settles if the registry query fails |
| `MirroredVideos.FindFirst` | src/controllers/bot/api.mirroredvideos.ts:84-89 | the first record matching the query's post id and bot (and url, for the exact query of `/delete`); none exactly when no record matches |
| `MirroredVideos.UpsertExisting` | src/controllers/bot/api.mirroredvideos.ts:97-110 | when a record of this post and bot exists, `/update` changes only that record's url; the record count and every other record stay the same |
| `MirroredVideos.UpsertFresh` | src/controllers/bot/api.mirroredvideos.ts:111-128 | when no record of this post and bot exists, `/update` appends exactly the record `(redditPostId, url, bot)` |
| `MirroredVideos.UpsertKeepsUnique` | src/controllers/bot/api.mirroredvideos.ts:84-128 | the upsert never creates a second record for a `(redditPostId, bot)` pair |
| `MirroredVideos.UpsertIdempotent` | src/controllers/bot/api.mirroredvideos.ts:84-128 | repeating the same `/update` leaves the table as the first one did, so it does not grow |
| `MirroredVideos.UpsertScoped` | src/controllers/bot/api.mirroredvideos.ts:84-89 | an upsert by one bot leaves every record of every other bot unchanged and in the same order |
| `MirroredVideos.RemovedShape` | src/controllers/bot/api.mirroredvideos.ts:152-185 | without an exact `(redditPostId, url, bot)` match the table is unchanged; with one, exactly one copy of that record is taken out and nothing else |
| `MirroredVideos.RemovedIsGone` | src/controllers/bot/api.mirroredvideos.ts:152-179 | while each `(redditPostId, bot)` has at most one record, a delete keeps that property and no record of the deleted triple remains |
| `MirroredVideos.RemovedScoped` | src/controllers/bot/api.mirroredvideos.ts:152-158 | a delete by one bot leaves every record of every other bot unchanged and in the same order |
| `MirroredVideos.MirrorTable.UpdateVideo` | src/controllers/bot/api.mirroredvideos.ts:50-53 | the record at the given place gets the new url; nothing else changes |
| `MirroredVideos.MirrorTable.CreateVideo` | src/controllers/bot/api.mirroredvideos.ts:55-61 | appends the record `(redditPostId, url, bot)` unless its save fails |
| `MirroredVideos.MirrorTable.Update` | src/controllers/bot/api.mirroredvideos.ts:63-131 | a refused authorization gives UNAUTHORIZED with its reason and leaves the table untouched; with a granted one, the table becomes `Upserted` of the old one and the reply is OK; a failing mirror query or url save gives INTERNAL_SERVER_ERROR and changes nothing; at most one record per `(redditPostId, bot)` is kept |
| `MirroredVideos.MirrorTable.Delete` | src/controllers/bot/api.mirroredvideos.ts:133-186 | a refused authorization gives UNAUTHORIZED and leaves the table untouched; an exact match gives OK and the table becomes `Removed` of the old one; no match gives NOT_FOUND and leaves the table unchanged |
| `Scenarios.AddThenGet` | src/controllers/admin/api.bots.ts:9-109 | after `/add` of a fresh username, `/get` of it answers OK with the same username, developer and token |
| `Scenarios.AddTwice` | src/controllers/admin/api.bots.ts:78-109 | a second `/add` of the same username answers BAD_REQUEST echoing it and leaves the first call's row in place |
| `Scenarios.UpdateDeveloperOnly` | src/controllers/admin/api.bots.ts:143-160 | `/update` with only a developer answers OK "Updated developer", changes the developer and keeps the token |
| `Scenarios.UpsertTwice` | src/controllers/bot/api.mirroredvideos.ts:63-131 | two `/update` requests for one post of one bot leave one record, holding the second url |
| `Scenarios.DeleteWrongUrl` | src/controllers/bot/api.mirroredvideos.ts:133-186 | `/delete` with the right post and bot but another url leaves the table unchanged |

## Left out

- Express routing, `req`/`res`, the `response` envelope helper and the numeric
  codes of `http-status-codes`: they become request parameters and the `Status`
  and `Reply` datatypes.
- The administrator check imported at `src/controllers/admin/api.bots.ts:3` is
  not part of this model; its verdict is a boolean parameter. Any reply that
  check sends itself is not modelled.
- Store failures are boolean parameters, one per kind of store call. They are
  not a nondeterministic choice. The error object that some replies echo in
  `data.error` is left out.
- Store behaviour beyond lookup, insert, replace and delete is left out: the
  database collation (usernames are ordered by character code), the handling
  of `undefined` values in a `where` clause (request fields the handlers pass
  straight to a query are present strings), and uniqueness constraints.
- Inside a present `data`, the fields `/add` stores (`username`, `developer`,
  `token`), the `username` of the other admin requests, and the mirror
  `redditPostId` and `url` are present strings. A request that leaves one of
  them out, which the code would pass on or save as `undefined`, is not
  modelled; a missing `data` object as a whole is.
- JSON values that are not strings in `auth.token`, `auth.botToken`,
  `developer` and `token` are not modelled; truthiness is defined for an
  optional string only.
- `createdAt` and `updatedAt` are opaque integers. A new bot gets the `now`
  parameter in both. The store's refresh of `updatedAt` on a save in `/update`
  is not modelled.
- The store assigns bot ids. Here the id is a parameter, and it is not
  checked to be unique.
- A mirror record holds its bot's id. The mirror entity's own id and
  timestamps are not part of this model.
- `BotTable.Update` keeps the fetched entity as a local value and writes it
  back. The store returns a fresh object per query, so no aliasing is lost.
- The un-awaited `createVideo(...)` and `mirroredVideo.remove()` complete at
  once in the model, with their failure taken from `Faults.writeFails`.
- `console.log` in `/update` of the mirror API.
- The race between concurrent requests that check and then act on the same
  key: requests are sequential here.
- The commented-out `/reddit/updateposts` handler, and the missing
  notification of the comment-updating job (a TODO in the code).
- What deleting a bot does to the mirror records that refer to it.
