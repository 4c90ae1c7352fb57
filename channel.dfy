/** pycordia/models/channel.py: a Discord channel mirrored from its payload,
    its comparisons and texts, and the query string `get_messages` sends. */
module ChannelModel {
  import opened Py
  import opened Json

  /** The values of `Channel.ChannelType`: 0..6 and 10..13. */
  predicate IsChannelType(n: int) {
    0 <= n <= 6 || 10 <= n <= 13
  }

  type ChannelType = n: int | IsChannelType(n)

  /** `Channel.ChannelType(value)`: an enum lookup by value; any other value
      is a ValueError. */
  function DecodeChannelType(j: Json): (r: Result<ChannelType>)
    ensures r.Ok? <==> IntValue(j).Some? && IsChannelType(IntValue(j).value)
  {
    match IntValue(j)
    case Some(n) => if IsChannelType(n) then Ok(n) else Err(ValueError("is not a valid ChannelType"))
    case None => Err(ValueError("is not a valid ChannelType"))
  }

  /** The integers that decode are exactly the eleven listed channel types. */
  lemma ChannelTypeDomain(n: int)
    ensures DecodeChannelType(JInt(n)).Ok? <==> n in {0, 1, 2, 3, 4, 5, 6, 10, 11, 12, 13}
    ensures DecodeChannelType(JInt(n)).Ok? ==> DecodeChannelType(JInt(n)).value == n
  {
  }

  datatype Channel = Channel(
    id: Json, kind: ChannelType, guildId: Json, position: Json,
    permissionOverwrites: Json, name: Json, topic: Json, nsfw: Json,
    lastMessageId: Json, bitrate: Json, userLimit: Json, rateLimitPerUser: Json,
    recipients: Json, iconHash: Json, ownerId: Json, applicationId: Json,
    parentId: Json, lastPinTimestamp: Option<Json>, rtcRegion: Json,
    videoQualityMode: Json, messageCount: Json, memberCount: Json,
    threadMetadata: Json, threadMember: Json,
    threadDefaultAutoArchiveDuration: Json, permissions: Json)

  /** `make_optional(datetime.fromisoformat, x)`: None for a falsy value.
      The parsing itself is not modelled: the timestamp text is kept. */
  function OptionalTimestamp(x: Json): (r: Option<Json>)
    ensures r.None? <==> !Truthy(x)
  {
    if Truthy(x) then Some(x) else None
  }

  /** `Channel(data)`: `id` and `type` are required and `type` must decode;
      everything else is optional, the counts defaulting to -1. */
  function FromJson(data: Json): (r: Result<Channel>)
    ensures r.Ok? <==> (data.JObj? && HasKey(data.fields, "id") && HasKey(data.fields, "type")
                        && DecodeChannelType(Lookup(data.fields, "type").value).Ok?)
    ensures r.Ok? ==> r.value.id == Lookup(data.fields, "id").value
  {
    var id :- Subscript(data, "id");
    var rawType :- Subscript(data, "type");
    var kind :- DecodeChannelType(rawType);
    var fs := data.fields;
    var lastPin := OptionalTimestamp(FieldOr(fs, "last_pin_timestamp", JNull));
    Ok(Channel(id, kind, FieldOr(fs, "guild_id", JNull), FieldOr(fs, "position", JNull),
      FieldOr(fs, "permission_overwrites", JArr([])), FieldOr(fs, "name", JNull),
      FieldOr(fs, "topic", JNull), FieldOr(fs, "nsfw", JNull),
      FieldOr(fs, "last_message_id", JNull), FieldOr(fs, "bitrate", JNull),
      FieldOr(fs, "user_limit", JNull), FieldOr(fs, "rate_limit_per_user", JNull),
      FieldOr(fs, "recipients", JArr([])), FieldOr(fs, "icon", JNull),
      FieldOr(fs, "owner_id", JNull), FieldOr(fs, "application_id", JNull),
      FieldOr(fs, "parent_id", JNull), lastPin, FieldOr(fs, "rtc_region", JNull),
      FieldOr(fs, "video_quality_mode", JNull), FieldOr(fs, "message_count", JInt(-1)),
      FieldOr(fs, "member_count", JInt(-1)), FieldOr(fs, "thread_metadata", JObj([])),
      FieldOr(fs, "member", JObj([])), FieldOr(fs, "default_auto_archive_duration", JInt(-1)),
      FieldOr(fs, "permissions", JNull)))
  }

  /** The three counts are -1 when the payload leaves them out. */
  lemma CountsDefaultToMinusOne(data: Json)
    requires FromJson(data).Ok?
    ensures !HasKey(data.fields, "message_count") ==> FromJson(data).value.messageCount == JInt(-1)
    ensures !HasKey(data.fields, "member_count") ==> FromJson(data).value.memberCount == JInt(-1)
    ensures !HasKey(data.fields, "default_auto_archive_duration")
      ==> FromJson(data).value.threadDefaultAutoArchiveDuration == JInt(-1)
  {
  }

  /** `channel == other`: same guild id and same id. */
  predicate Same(a: Channel, b: Channel) {
    a.guildId == b.guildId && a.id == b.id
  }

  /** Equality is an equivalence that looks at nothing but the two ids. */
  lemma SameIsEquivalence(a: Channel, b: Channel, c: Channel)
    ensures Same(a, a)
    ensures Same(a, b) ==> Same(b, a)
    ensures Same(a, b) && Same(b, c) ==> Same(a, c)
    ensures Same(a, b) <==> Same(a.(name := b.name, position := b.position), b)
  {
  }

  /** `channel.mention` */
  function Mention(c: Channel): string {
    "<#" + Str(c.id) + ">"
  }

  /** `str(channel)` */
  function Text(c: Channel): string {
    "#" + Str(c.name)
  }

  /** The mention wraps the id text in "<#" and ">"; the text form prefixes "#". */
  lemma MentionAndTextShape(c: Channel)
    ensures StartsWith(Mention(c), "<#") && EndsWith(Mention(c), ">")
    ensures Mention(c)[2..|Mention(c)| - 1] == Str(c.id)
    ensures Text(c)[0] == '#' && Text(c)[1..] == Str(c.name)
  {
  }

  // ---------------------------------------------------------------------
  // get_messages

  const DefaultLimit := JInt(50)

  /** One `&name=value` piece (its prefix is "&name="), present only for a
      truthy value. */
  function QueryPart(prefix: string, value: Json): string {
    if Truthy(value) then prefix + Str(value) else ""
  }

  /** The query string `get_messages` appends to the endpoint. */
  function MessagesQuery(limit: Json, before: Json, around: Json, after: Json): string {
    "?limit=" + Str(limit) + QueryPart("&before=", before) + QueryPart("&around=", around)
      + QueryPart("&after=", after)
  }

  /** The query building of `get_messages`, piece by piece. */
  method GetMessagesQuery(limit: Json, before: Json, around: Json, after: Json)
    returns (paramString: string)
    ensures paramString == MessagesQuery(limit, before, around, after)
  {
    paramString := "?limit=" + Str(limit);
    if Truthy(before) { paramString := paramString + ("&before=" + Str(before)); }
    else { assert paramString + QueryPart("&before=", before) == paramString; }
    assert paramString == "?limit=" + Str(limit) + QueryPart("&before=", before);
    ghost var soFar := paramString;
    if Truthy(around) { paramString := paramString + ("&around=" + Str(around)); }
    else { assert paramString + QueryPart("&around=", around) == paramString; }
    assert paramString == soFar + QueryPart("&around=", around);
    soFar := paramString;
    if Truthy(after) { paramString := paramString + ("&after=" + Str(after)); }
    else { assert paramString + QueryPart("&after=", after) == paramString; }
    assert paramString == soFar + QueryPart("&after=", after);
  }

  function CountChar(s: string, c: char): nat {
    if s == [] then 0 else (if s[0] == c then 1 else 0) + CountChar(s[1..], c)
  }

  lemma {:induction false} CountCharConcat(s: string, t: string, c: char)
    ensures CountChar(s + t, c) == CountChar(s, c) + CountChar(t, c)
  {
    if s == [] {
      assert s + t == t;
    } else {
      assert (s + t)[0] == s[0];
      assert (s + t)[1..] == s[1..] + t;
      CountCharConcat(s[1..], t, c);
    }
  }

  lemma {:induction false} NoCharCount(s: string, c: char)
    requires c !in s
    ensures CountChar(s, c) == 0
  {
    if s != [] { NoCharCount(s[1..], c); }
  }

  function Flag(b: bool): nat { if b then 1 else 0 }

  /** A piece whose prefix holds one "&" adds exactly one "&" when present. */
  lemma QueryPartCount(prefix: string, value: Json)
    requires prefix != [] && prefix[0] == '&' && '&' !in prefix[1..] && '&' !in Str(value)
    ensures CountChar(QueryPart(prefix, value), '&') == Flag(Truthy(value))
  {
    if Truthy(value) {
      CountCharConcat(prefix, Str(value), '&');
      NoCharCount(prefix[1..], '&');
      NoCharCount(Str(value), '&');
    }
  }

  lemma {:induction false} CountCharFour(h: string, b: string, r: string, a: string, c: char)
    ensures CountChar(h + b + r + a, c) == CountChar(h, c) + CountChar(b, c) + CountChar(r, c) + CountChar(a, c)
  {
    CountCharConcat(h, b, c);
    CountCharConcat(h + b, r, c);
    CountCharConcat(h + b + r, a, c);
  }

  /** The "?limit=" head holds no "&". */
  lemma HeadCount(limit: Json)
    requires '&' !in Str(limit)
    ensures CountChar("?limit=" + Str(limit), '&') == 0
  {
    CountCharConcat("?limit=", Str(limit), '&');
    NoCharCount("?limit=", '&');
    NoCharCount(Str(limit), '&');
  }

  /** Each optional piece counts one "&" when present. */
  lemma PieceCounts(before: Json, around: Json, after: Json)
    requires '&' !in Str(before) && '&' !in Str(around) && '&' !in Str(after)
    ensures CountChar(QueryPart("&before=", before), '&') == Flag(Truthy(before))
    ensures CountChar(QueryPart("&around=", around), '&') == Flag(Truthy(around))
    ensures CountChar(QueryPart("&after=", after), '&') == Flag(Truthy(after))
  {
    assert "&before="[1..] == "before=" && "&around="[1..] == "around=" && "&after="[1..] == "after=";
    QueryPartCount("&before=", before);
    QueryPartCount("&around=", around);
    QueryPartCount("&after=", after);
  }

  /** When no value contains "&", the query has one "&" per truthy optional
      argument: none is dropped or duplicated. */
  lemma QuerySeparators(limit: Json, before: Json, around: Json, after: Json)
    requires '&' !in Str(limit) && '&' !in Str(before) && '&' !in Str(around) && '&' !in Str(after)
    ensures CountChar(MessagesQuery(limit, before, around, after), '&')
      == Flag(Truthy(before)) + Flag(Truthy(around)) + Flag(Truthy(after))
  {
    HeadCount(limit);
    PieceCounts(before, around, after);
    CountCharFour("?limit=" + Str(limit), QueryPart("&before=", before), QueryPart("&around=", around),
                  QueryPart("&after=", after), '&');
  }

  /** With only the default limit the query is exactly "?limit=50". */
  lemma DefaultQuery()
    ensures MessagesQuery(DefaultLimit, JNull, JNull, JNull) == "?limit=50"
  {
    assert NatToDecimal(50) == NatToDecimal(5) + [DigitChar(0)];
  }

  /** `ChannelMention(data)`: all four keys are required. */
  datatype ChannelMention = ChannelMention(channelId: Json, guildId: Json, channelType: Json, channelName: Json)

  function MentionFromJson(data: Json): (r: Result<ChannelMention>)
    ensures r.Ok? <==> (data.JObj? && HasKey(data.fields, "id") && HasKey(data.fields, "guild_id")
                        && HasKey(data.fields, "type") && HasKey(data.fields, "name"))
  {
    var id :- Subscript(data, "id");
    var guild :- Subscript(data, "guild_id");
    var kind :- Subscript(data, "type");
    var name :- Subscript(data, "name");
    Ok(ChannelMention(id, guild, kind, name))
  }
}
