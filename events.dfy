/** pycordia/events.py: the typed events the client hands to handlers, each
    a projection of the gateway payload. */
module Events {
  import opened Py
  import opened Json
  import UserModel
  import GuildModel

  // ---------------------------------------------------------------------
  // ReadyEvent

  /** Tuples are written as JSON arrays: `shard` defaults to `()`, the empty array. */
  datatype ReadyEvent = ReadyEvent(
    gatewayVersion: Json, user: UserModel.User, guilds: seq<int>, sessionId: Json,
    shard: Json, partialApplication: Json)

  /** `int(guild["id"])` */
  function GuildIdOf(guild: Json): (r: Result<int>)
    ensures r.Ok? ==> guild.JObj? && HasKey(guild.fields, "id")
    ensures guild.JObj? && HasKey(guild.fields, "id") ==> r == IntOf(Lookup(guild.fields, "id").value)
  {
    var id :- Subscript(guild, "id");
    IntOf(id)
  }

  /** `ReadyEvent(data)`: `v`, `user`, `guilds`, `session_id` and
      `application` are required; `shard` is optional. */
  function ReadyFromJson(data: Json): (r: Result<ReadyEvent>)
    ensures r.Ok? ==> (data.JObj? && HasKey(data.fields, "v") && HasKey(data.fields, "user")
                       && HasKey(data.fields, "guilds") && HasKey(data.fields, "session_id")
                       && HasKey(data.fields, "application"))
    ensures r.Ok? ==> Ok(r.value.guilds) == MapIter(Lookup(data.fields, "guilds").value, GuildIdOf)
    ensures r.Ok? ==> r.value.sessionId == Lookup(data.fields, "session_id").value
    ensures r.Ok? && !HasKey(data.fields, "shard") ==> r.value.shard == JArr([])
  {
    var v :- Subscript(data, "v");
    var rawUser :- Subscript(data, "user");
    var user :- UserModel.FromJson(rawUser);
    var rawGuilds :- Subscript(data, "guilds");
    var guilds :- MapIter(rawGuilds, GuildIdOf);
    var session :- Subscript(data, "session_id");
    var app :- Subscript(data, "application");
    Ok(ReadyEvent(v, user, guilds, session, FieldOr(data.fields, "shard", JArr([])), app))
  }

  /** Guild payloads whose ids are decimal texts give exactly those integers,
      in payload order. */
  lemma ReadyGuildIdsInOrder(guilds: seq<Json>, ids: seq<int>)
    requires |guilds| == |ids|
    requires forall i :: 0 <= i < |guilds| ==>
      guilds[i].JObj? && Lookup(guilds[i].fields, "id") == Some(JStr(IntToDecimal(ids[i])))
    ensures MapIter(JArr(guilds), GuildIdOf) == Ok(ids)
  {
    forall i | 0 <= i < |guilds| ensures GuildIdOf(guilds[i]) == Ok(ids[i]) {
      ParseIntOfDecimal(ids[i]);
    }
    var r := MapAll(guilds, GuildIdOf);
    assert r.Ok?;
    assert r.value == ids;
  }

  // ---------------------------------------------------------------------
  // MessageDeleteEvent

  datatype MessageDeleteEvent = MessageDeleteEvent(
    messageIds: Json, cachedMessages: Json, channelId: Json, guildId: Json, bulk: bool)

  /** `MessageDeleteEvent(data, bulk, messages)`: a bulk delete carries
      `data["ids"]`, a single one the list `[data["id"]]`. */
  function DeleteFromJson(data: Json, bulk: bool, messages: Json): (r: Result<MessageDeleteEvent>)
    ensures r.Ok? <==> (data.JObj? && HasKey(data.fields, if bulk then "ids" else "id")
                        && HasKey(data.fields, "channel_id"))
    ensures r.Ok? && bulk ==> r.value.messageIds == Lookup(data.fields, "ids").value
    ensures r.Ok? && !bulk ==> r.value.messageIds == JArr([Lookup(data.fields, "id").value])
    ensures r.Ok? ==> (r.value.bulk == bulk && r.value.cachedMessages == messages
                       && r.value.channelId == Lookup(data.fields, "channel_id").value
                       && r.value.guildId == FieldOr(data.fields, "guild_id", JNull))
  {
    var ids :- if bulk then Subscript(data, "ids")
      else (var id :- Subscript(data, "id"); Ok(JArr([id])));
    var channel :- Subscript(data, "channel_id");
    Ok(MessageDeleteEvent(ids, messages, channel, FieldOr(data.fields, "guild_id", JNull), bulk))
  }

  // ---------------------------------------------------------------------
  // TypingStartEvent

  datatype TypingStartEvent = TypingStartEvent(
    timestamp: Json, member: GuildModel.Member, userId: Json, channelId: Json, guildId: Json)

  /** `TypingStartEvent(data)`: `timestamp`, `user_id`, `channel_id` and
      `guild_id` are required; the member is `Member(data.get("member", {}))`. */
  function TypingFromJson(data: Json): (r: Result<TypingStartEvent>)
    ensures r.Ok? <==> (data.JObj? && HasKey(data.fields, "timestamp") && HasKey(data.fields, "user_id")
                        && HasKey(data.fields, "channel_id") && HasKey(data.fields, "guild_id")
                        && GuildModel.MemberFromJson(FieldOr(data.fields, "member", JObj([]))).Ok?)
    ensures r.Ok? ==> r.value.userId == Lookup(data.fields, "user_id").value
  {
    var timestamp :- Subscript(data, "timestamp");
    var member :- GuildModel.MemberFromJson(FieldOr(data.fields, "member", JObj([])));
    var userId :- Subscript(data, "user_id");
    var channel :- Subscript(data, "channel_id");
    var guild :- Subscript(data, "guild_id");
    Ok(TypingStartEvent(timestamp, member, userId, channel, guild))
  }

  /** Without a member payload the event cannot be built: the fallback
      `Member({})` raises KeyError('joined_at'). */
  lemma TypingStartNeedsMember(fs: Dict<Json>)
    requires HasKey(fs, "timestamp") && !HasKey(fs, "member")
    ensures TypingFromJson(JObj(fs)) == Err(KeyError("joined_at"))
  {
    var empty: Dict<Json> := [];
    GuildModel.EmptyMemberFails(empty);
  }
}
