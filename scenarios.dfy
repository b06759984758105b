/** Clients of the two handler models: sequences of requests and what their
    contracts let a caller conclude about the later replies. */
module Scenarios {
  import opened Common
  import BotsAdmin
  import MirroredVideos

  const Admin := BotsAdmin.Env(true, false, false)
  const NoFaults := MirroredVideos.Faults(false, false, false)

  /** A fresh username registered by `/add` is what `/get` returns next. */
  method AddThenGet(t: BotsAdmin.BotTable, username: string, developer: string, token: string,
                    id: int, now: int)
    requires t.Valid() && username !in t.rows
    modifies t
    ensures t.Valid()
    ensures t.Get(Admin, Some(BotsAdmin.Lookup(username))) ==
      BotsAdmin.Reply(OK, "OK", BotsAdmin.Profile(username, developer, token))
  {
    var added := t.Add(Admin, Some(BotsAdmin.Registration(username, developer, token)), id, now);
    assert added.status == OK;
  }

  /** A second `/add` of the same username is refused and the first one's
      values stay. */
  method AddTwice(t: BotsAdmin.BotTable, username: string, developer: string, token: string,
                  otherDeveloper: string, otherToken: string, id: int, now: int)
    returns (second: BotsAdmin.Reply)
    requires t.Valid() && username !in t.rows
    modifies t
    ensures t.Valid()
    ensures second.status == BadRequest && second.data == BotsAdmin.Named(username)
    ensures username in t.rows
    ensures t.rows[username] == BotsAdmin.Bot(id, username, developer, token, now, now)
  {
    var first := t.Add(Admin, Some(BotsAdmin.Registration(username, developer, token)), id, now);
    second := t.Add(Admin, Some(BotsAdmin.Registration(username, otherDeveloper, otherToken)),
                    id + 1, now + 1);
  }

  /** `/update` with only a developer answers "Updated developer" and keeps
      the token. */
  method UpdateDeveloperOnly(t: BotsAdmin.BotTable, username: string, developer: string)
    returns (reply: BotsAdmin.Reply)
    requires t.Valid() && username in t.rows && developer != ""
    modifies t
    ensures t.Valid()
    ensures reply.status == OK && reply.message == "Updated developer"
    ensures username in t.rows && t.rows[username].developer == developer
    ensures t.rows[username].token == old(t.rows[username].token)
  {
    reply := t.Update(Admin, Some(BotsAdmin.Revision(username, Some(developer), None)));
    BotsAdmin.UpdateMessage(true, false);
  }

  /** Two `/update` requests for one post of one bot: the first creates the
      record, the second changes its url, and one record remains. */
  method UpsertTwice(m: MirroredVideos.MirrorTable)
    requires m.mirrors == []
    modifies m
    ensures |m.mirrors| == 1
    ensures m.mirrors[0] == MirroredVideos.Mirror("abc123", "http://x/video2.mp4", 7)
  {
    var bot := BotsAdmin.Bot(7, "mirrorbot", "dev", "b0tT0k3n", 0, 0);
    var auth := Some(MirroredVideos.Auth(Some("S3CR3T"), Some("b0tT0k3n")));
    var first := m.Update(
      Some(MirroredVideos.Body(auth, Some(MirroredVideos.Payload("abc123", "http://x/video.mp4")))),
      Some("S3CR3T"), [bot], NoFaults);
    assert m.mirrors == [MirroredVideos.Mirror("abc123", "http://x/video.mp4", 7)];
    var second := m.Update(
      Some(MirroredVideos.Body(auth, Some(MirroredVideos.Payload("abc123", "http://x/video2.mp4")))),
      Some("S3CR3T"), [bot], NoFaults);
    MirroredVideos.UpsertExisting([MirroredVideos.Mirror("abc123", "http://x/video.mp4", 7)],
                                  "abc123", "http://x/video2.mp4", 7, 0);
  }

  /** `/delete` with the right post and bot but another url finds nothing. */
  method DeleteWrongUrl(m: MirroredVideos.MirrorTable)
    requires m.mirrors == [MirroredVideos.Mirror("abc123", "http://x/video.mp4", 7)]
    modifies m
    ensures m.mirrors == old(m.mirrors)
  {
    var bot := BotsAdmin.Bot(7, "mirrorbot", "dev", "b0tT0k3n", 0, 0);
    var auth := Some(MirroredVideos.Auth(Some("S3CR3T"), Some("b0tT0k3n")));
    var reply := m.Delete(
      Some(MirroredVideos.Body(auth, Some(MirroredVideos.Payload("abc123", "http://x/other.mp4")))),
      Some("S3CR3T"), [bot], NoFaults);
    assert reply.status == NotFound;
  }
}
