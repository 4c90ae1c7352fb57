# pycordia, modelled in Dafny

This project models the core of pycordia, a small Python framework for Discord bots,
and proves properties of that model. One Dafny module stands for each source file:

- **Gateway** (`websocket.py`): the gateway client. It covers the opcode table, the
  identify frame, one pass of the receive loop and the loop over a sequence of frames,
  and one pass of the heartbeat loop. The `DiscordWebSocket` class holds the fields the
  two loops update.
- **ClientModel** and **Intents** (`client.py`): the handler registry, the routing of a
  gateway dispatch to a handler, and the intents as 16-bit flags merged by a loop.
- **Events** (`events.py`): the typed events a handler receives.
- **GeneralErrors**, **QueryErrors** and **HttpErrors** (`errors/general.py`,
  `errors.py`, `errors/http.py`):
  - the gateway close-code hints;
  - the two gateway error classes;
  - the choice of HTTP error class by status;
  - the flattening of Discord's nested `errors` object and the rendering of an
    HTTP error's text.
- **Http** (`http.py`): the UTF-8 multipart body, the query-string loop, the request
  `request` hands to the session, and the treatment of the response status.
- **Utils** (`utils.py`): `obj_to_dict` and `obj_from_dict` as loops over an attribute
  dict and a parameter list.
- **Components** (`interactions/components.py`): the component enums, `Button` with its
  validation and JSON round trip, and `SelectMenuOption`.
- **Interactions** (`_interactions.py`): application-command options and commands, and
  the slash-command registry.
- **UserModel**, **GuildModel**, **ChannelModel**, **MessageModel** and **EmbedModel**
  (`models/`): each model class is built from its payload. This covers the required
  keys, defaults, enum decoding, equality and ordering, `to_dict` round trips, the
  message send/edit payloads and the embed builder.

Two shared modules hold Python's semantics:

- **Py**: the `Option` and `Result` wrappers, Python exceptions, `str.lower`, `strip`,
  `str(int)` and `int(str)`.
- **Json**: JSON values, dicts as insertion-ordered association lists, truthiness,
  `d[k]`, `d.get`, `dict(items)`, iteration and text ordering.

A Python exception is an `Err` carrying a `PyError`. A call that can raise returns a
`Result`, and the error cases are modelled rather than excluded by preconditions.

## Model

| member | source | states |
|---|---|---|
| Gateway.OpcodeTable | pycordia/websocket.py:23-35 | DISPATCH, HEARTBEAT, IDENTIFY and HELLO map to 0, 1, 2 and 10 |
| Gateway.OpcodesDistinct | pycordia/websocket.py:23-35 | no two opcode names share a code |
| Gateway.IdentifyShape | pycordia/websocket.py:50-64 | the identify frame has op 2 and carries the token, the intents, the OS name, "pycordia" as browser and device, compress False and large_threshold 250 |
| Gateway.CloseAlwaysRaises | pycordia/websocket.py:82-85 | every close frame closes the socket with 1001 and raises a gateway error carrying the frame's code and extra, without touching the state |
| Gateway.OtherFramesIgnored | pycordia/websocket.py:79-100 | a frame that is neither close nor text changes nothing and has no effect |
| Gateway.SequenceOverwritten | pycordia/websocket.py:87-90 | once "d" is read, the sequence becomes the frame's "s", or None when it is absent |
| Gateway.MissingDataRaises | pycordia/websocket.py:87-88 | a text frame without "d" raises KeyError before any state changes |
| Gateway.HelloIdentifies | pycordia/websocket.py:92-95 | a hello stores the heartbeat interval and sends exactly one identify frame; the session id is kept |
| Gateway.DispatchForwardsOnce | pycordia/websocket.py:96-100 | a dispatch hands (t, d) to the client once: the handler routing finds is awaited once, a routing exception ends the pass with that exception, a non-text t raises AttributeError; only a READY dispatch stores the session id |
| Gateway.Deliver | pycordia/websocket.py:100 | `call_event_handler(t, d)` keeps the state, and the pass ends normally exactly when t is a text and routing it does not raise |
| Gateway.FirstRaiseEndsRun | pycordia/websocket.py:77-100 | the first frame whose pass raises ends the loop with that exception; the state and effects are those at that frame |
| Gateway.DeleteDispatchEndsRun | pycordia/websocket.py:96-100 | a MESSAGE_DELETE dispatch with a registered handler ends the loop with TypeError before the next frame is read |
| Gateway.OtherOpcodesOnlySequence | pycordia/websocket.py:86-100 | any other opcode only updates the sequence and sends nothing |
| Gateway.OnlyReadySetsSession | pycordia/websocket.py:90-100 | the session id changes only on a READY dispatch, and the interval only on a hello |
| Gateway.RunStopSticks | pycordia/websocket.py:77-100 | once the loop has raised, later frames are never read |
| Gateway.CloseEndsRun | pycordia/websocket.py:79-85 | a close anywhere in the frames ends the loop with an exception |
| Gateway.RunEffectsGrow | pycordia/websocket.py:77-100 | the effects after a prefix of the frames are a prefix of the effects after all of them |
| Gateway.KeepAlive | pycordia/websocket.py:66-75 | the heartbeat loop spins without sending exactly when the interval is falsy |
| Gateway.NoHeartbeatBeforeHello | pycordia/websocket.py:41-43 | the initial state sends no heartbeat |
| Gateway.HeartbeatAfterFrame | pycordia/websocket.py:69-75 | after a text frame, a heartbeat carries that frame's "s" |
| Gateway.DiscordWebSocket.constructor | pycordia/websocket.py:37-48 | keeps the client, the token and the intents; interval, sequence and session id start as None |
| Gateway.DiscordWebSocket.HandleFrame | pycordia/websocket.py:80-100 | one loop pass, calling the client's `CallEventHandler` on a dispatch, leaves the object in the state `Receive` gives under the client's registry, with its effects and stop (a raising dispatch stops it) |
| Gateway.DiscordWebSocket.ListenSocket | pycordia/websocket.py:77-100 | the loop over a sequence of frames agrees with `Run`, stopping at the first frame that raises, a raising dispatch included |
| Gateway.DiscordWebSocket.KeepAliveStep | pycordia/websocket.py:66-75 | one heartbeat pass agrees with `KeepAlive` on the current state |
| ClientModel.Dispatch | pycordia/client.py:66-71 | no call without a handler under "on_" plus the lower-cased name; any call goes to that handler |
| ClientModel.Route | pycordia/client.py:70-86 | the same property for a name that is already lower-cased |
| ClientModel.DispatchIgnoresCase | pycordia/client.py:67 | dispatch gives the same result for a name and its lower-cased form |
| ClientModel.DispatchReady | pycordia/client.py:73-74 | "ready" hands the handler the ReadyEvent, or raises the event's own error |
| ClientModel.DispatchTyping | pycordia/client.py:75-76 | "typing_start" hands the handler the TypingStartEvent, or its error |
| ClientModel.DispatchMessage | pycordia/client.py:77-78 | "message_create" hands the handler the Message, or its error |
| ClientModel.DispatchOther | pycordia/client.py:85-86 | any other name with a handler passes the payload through unchanged |
| ClientModel.DeleteDispatchRaises | pycordia/client.py:79-84 | a single or bulk delete with a handler always raises TypeError, because the event takes three arguments and is given two |
| ClientModel.LatestRegistrationWins | pycordia/client.py:52-53 | after registering a function, an event routed to its name calls it |
| ClientModel.Client.constructor | pycordia/client.py:58-60 | the registry starts empty and the intents are kept |
| ClientModel.Client.Event | pycordia/client.py:52-53 | registers the function under its name, replacing any earlier one; other names are kept |
| ClientModel.Client.CallEventHandler | pycordia/client.py:66-86 | agrees with `Dispatch` on the current registry |
| Intents.ValueIsShift | pycordia/client.py:14-29 | each intent's value is 1 shifted left by its position |
| Intents.DistinctIntentsDisjoint | pycordia/client.py:14-29 | each value is non-zero, and distinct intents share no bit |
| Intents.MergeIntents | pycordia/client.py:36-47 | the loop computes the OR of the values in list order |
| Intents.MergedHas | pycordia/client.py:36-47 | an intent's bit is set in the merged value exactly when the intent is in the list |
| Intents.MergedBelow | pycordia/client.py:36-47 | the merged value never exceeds 0x7FFF |
| Intents.All | pycordia/client.py:31-34 | `all()` is 0x7FFF and has every intent's bit set |
| Intents.AllIsFifteenBits | pycordia/client.py:31-34 | merging every intent gives 2^15 - 1 |
| Events.GuildIdOf | pycordia/events.py:18 | `int(guild["id"])`: needs a dict with "id" and converts its value |
| Events.ReadyFromJson | pycordia/events.py:15-22 | needs v, user, guilds, session_id and application; guild ids are converted in order; shard defaults to the empty tuple |
| Events.ReadyGuildIdsInOrder | pycordia/events.py:18 | guild payloads whose ids are decimal texts give exactly those integers, in order |
| Events.DeleteFromJson | pycordia/events.py:35-45 | a bulk delete takes "ids" and a single delete takes ["id"]; channel_id is required and guild_id is optional |
| Events.TypingFromJson | pycordia/events.py:50-65 | timestamp, user_id, channel_id and guild_id are required, and the member must build |
| Events.TypingStartNeedsMember | pycordia/events.py:61 | without a member payload the event raises KeyError('joined_at') |
| GeneralErrors.Cause | pycordia/errors/general.py:4-26 | a hint exists exactly for the nine explained close codes |
| GeneralErrors.CauseTable | pycordia/errors/general.py:10-26 | the hint text for each explained code |
| GeneralErrors.UnexplainedIsNone | pycordia/errors/general.py:4-28 | any other code renders its hint as "None" |
| GeneralErrors.NormalClosesUnexplained | pycordia/errors/general.py:4-28 | a 1000 or 1001 close has the text "message None (error code n)" |
| GeneralErrors.CodeReadBack | pycordia/errors/general.py:28 | the text ends with the code suffix, and `int()` of the digits inside it gives the code back |
| GeneralErrors.DistinctCodesDistinctTexts | pycordia/errors/general.py:28 | errors with different codes have different texts |
| GeneralErrors.TupleRepr | pycordia/errors/general.py:35 | the repr of the argument tuple is parenthesised, and a one-element tuple keeps its trailing comma |
| GeneralErrors.MutuallyExclusiveText | pycordia/errors/general.py:33-37 | the text opens with "Only one of this group ", followed by the group's repr, and ends with ", found n." |
| GeneralErrors.ClientSetupText | pycordia/errors/general.py:41-42 | a falsy message gives the default text; a truthy one is used as it is |
| GeneralErrors.ClientSetup | pycordia/errors/general.py:39-42 | the exception carries that text |
| QueryErrors.Make | pycordia/errors.py:2-4 | the error keeps its code and message as given |
| QueryErrors.GatewayFormatsAsQuery | pycordia/errors.py:1-8 | this module's GatewayError formats exactly like QueryError: "message (error code c)" |
| QueryErrors.NoCauseText | pycordia/errors.py:5 | its text is the general gateway error's text without the hint |
| QueryErrors.ShorterThanGeneral | pycordia/errors.py:5 | so its text is strictly shorter than the general one for the same code and message |
| QueryErrors.Component | pycordia/errors.py:10-11 | ComponentError carries exactly its text |
| HttpErrors.ClassTable | pycordia/errors/http.py:1-17 | the class for each listed status; other 5xx statuses give ServerError |
| HttpErrors.ServerErrorIff | pycordia/errors/http.py:12-15 | ServerError exactly for statuses other than 502 whose decimal text starts with "5", including 5 and 5000 |
| HttpErrors.UnlistedBelowFiveHundred | pycordia/errors/http.py:12-17 | unlisted statuses from 100 to 499 give the plain HTTPError |
| HttpErrors.ItemKey | pycordia/errors/http.py:42 | the key is the bare key at top level, and otherwise "input_key." followed by the key and nothing else |
| HttpErrors.FlattenErrors | pycordia/errors/http.py:38-52 | flattening a dict gives `dict(items)` of the visited entries; a non-dict raises |
| HttpErrors.FlattenDict | pycordia/errors/http.py:41-52 | the loop with its recursion agrees with `Flattened` |
| HttpErrors.FlatKeysExtend | pycordia/errors/http.py:41-50 | every flattened key extends the key of the top-level entry it came from |
| HttpErrors.FromItemsKeys | pycordia/errors/http.py:52 | every key of `dict(items)` is the key of some item |
| HttpErrors.NestedExample | pycordia/errors/http.py:41-50 | nesting is spelled with dots, and a dict holding "_errors" is a leaf |
| HttpErrors.RenderErrorMessage | pycordia/errors/http.py:28-34 | the text is the header followed by every block, or the first error a block raises |
| HttpErrors.RenderBlock | pycordia/errors/http.py:31-34 | one key line and then one tab-indented line per error, or the error raised on the way |
| HttpErrors.ErrorLinesErrSticks | pycordia/errors/http.py:33-34 | once an error entry raises, the later entries change nothing |
| HttpErrors.BlocksErrSticks | pycordia/errors/http.py:30-34 | once a block raises, the later keys change nothing |
| HttpErrors.NewHttpError | pycordia/errors/http.py:21-36 | the constructor agrees with `ErrorOf`: code, errors, message, the flattening, the rendering and the strip |
| HttpErrors.DetermineError | pycordia/errors/http.py:1-17 | `determine_error` builds the error of the class `ClassFor` picks |
| HttpErrors.RequiredKeys | pycordia/errors/http.py:24-26 | a missing "code" or "message" raises KeyError naming it |
| HttpErrors.NoErrorsKey | pycordia/errors/http.py:25-36 | without "errors", errors is {} and the text is the stripped header alone |
| HttpErrors.PayloadError | pycordia/errors/http.py:21-36 | a full payload keeps code, message and errors, and the text is the stripped rendering of the flattened errors |
| HttpErrors.SingleFieldFlattened | pycordia/errors/http.py:44-46 | a field whose dict holds "_errors" flattens to that list under the field's name |
| HttpErrors.OneFieldExample | pycordia/errors/http.py:28-36 | one field with one error renders as the header, a blank line, the key line and one tab-indented line |
| HttpErrors.NonIterableErrorsRaise | pycordia/errors/http.py:33-34 | an errors value that cannot be iterated makes the construction raise TypeError |
| Http.EncodeChar | pycordia/http.py:52 | UTF-8 takes 1 to 4 bytes, and exactly one byte, equal to the code point, for ASCII |
| Http.Utf8Append | pycordia/http.py:52-58 | encoding distributes over concatenation |
| Http.Utf8Ascii | pycordia/http.py:52 | ASCII text encodes byte for character |
| Http.FilePartsPrefix | pycordia/http.py:54-57 | the parts of the first n files come first, unchanged by later files |
| Http.FilePartAt | pycordia/http.py:54-57 | file i's part sits in the body intact, right after the parts before it |
| Http.PayloadPartOpens | pycordia/http.py:49-52 | the payload part opens with "--boundary" and a newline |
| Http.ClosingEnds | pycordia/http.py:58 | the closing boundary ends in two dashes, not a newline |
| Http.MultipartFrame | pycordia/http.py:49-60 | the body opens with the boundary line and ends with the closing boundary |
| Http.NoFilesMultipart | pycordia/http.py:49-60 | without files the body is the payload part followed directly by the closing boundary |
| Http.NonNull | pycordia/http.py:99-101 | the entries whose value is not None, in order |
| Http.ParamItemsAppend | pycordia/http.py:99-103 | the parameter list of two dicts laid end to end is the concatenation of their lists |
| Http.RenderEach | pycordia/http.py:103 | each entry is rendered as "name=value" |
| Http.ParamItemsRenderKept | pycordia/http.py:97-103 | the parameter list is the non-None entries, each rendered |
| Http.ParamItemsFilterMap | pycordia/http.py:97-103 | the list's length and items, entry by entry |
| Http.ParamItemsEmptyIff | pycordia/http.py:97-106 | the list is empty exactly when every value is None |
| Http.FalsyValuesKept | pycordia/http.py:100-101 | False, 0 and "" are kept and only None is dropped |
| Http.BuildParamList | pycordia/http.py:97-103 | the loop builds `ParamItems` |
| Http.WithQuery | pycordia/http.py:105-106 | the endpoint is kept as a prefix; "?" and the "&"-joined items are added only when there are items |
| Http.QueryAppendedIff | pycordia/http.py:97-106 | a query is appended exactly when some parameter is not None |
| Http.ParamsOf | pycordia/http.py:91-92 | falsy params become {}; a truthy non-dict has no items() and raises |
| Http.NoSessionFailsFirst | pycordia/http.py:94-95 | without a session, ClientSetupError is raised before anything else |
| Http.BodyKind | pycordia/http.py:108-116 | with files, a multipart body naming the boundary; otherwise JSON, with no body for an empty payload |
| Http.RequestUrl | pycordia/http.py:97-119 | the URL is the API root, a slash, and the endpoint with its query |
| Http.RespondCases | pycordia/http.py:122-134 | a response exactly below 400; a 204 answers {}; otherwise the error `determine_error` builds |
| Http.HttpClient.constructor | pycordia/http.py:19-24 | keeps the token and boundary, with no session |
| Http.HttpClient.Login | pycordia/http.py:26-37 | a session exists afterwards, and token and boundary are unchanged |
| Http.HttpClient.CreateMultipart | pycordia/http.py:39-60 | the loop builds `Multipart` |
| Http.HttpClient.Prepare | pycordia/http.py:89-120 | the request agrees with `Plan` |
| Http.HttpClient.QueryEndpoint | pycordia/http.py:97-106 | the endpoint after the parameter loop is `WithQuery` of `ParamItems` |
| Http.HttpClient.HandleResponse | pycordia/http.py:122-136 | agrees with `Respond` |
| Utils.ExportName | pycordia/utils.py:35-38 | an attribute's alias when one is given, and otherwise its own name |
| Utils.PublicName | pycordia/utils.py:34 | a name that does not start with "_" is public |
| Utils.ObjToDict | pycordia/utils.py:23-40 | the loop builds `Exported` |
| Utils.ExportedKeysFromPublic | pycordia/utils.py:31-38 | every exported key is the export name of some public attribute |
| Utils.NoPrivateExported | pycordia/utils.py:34 | without aliases, no private name is exported |
| Utils.ExportedValue | pycordia/utils.py:33-38 | a public attribute that no later one shadows is exported with its value |
| Utils.PublicKeepsName | pycordia/utils.py:33-38 | with unique names and no aliases, each public attribute keeps its name and value |
| Utils.AliasedKeepsValue | pycordia/utils.py:35-36 | an aliased attribute appears under its alias with its value unchanged |
| Utils.PublicOnly | pycordia/utils.py:33-34 | keeps only public attributes of the input |
| Utils.ExportedDistinct | pycordia/utils.py:31-40 | with unique names and no aliases, `obj_to_dict` is exactly the public attributes in order |
| Utils.PublicOnlyAllPublic | pycordia/utils.py:33-34 | attributes that are all public are all kept |
| Utils.ObjFromDict | pycordia/utils.py:4-21 | the parameter loop builds `Kwargs` |
| Utils.KwargsErrSticks | pycordia/utils.py:15-19 | once a parameter raises, the whole call raises that error |
| Utils.KwargsFailsIff | pycordia/utils.py:15-19 | the call fails exactly when some aliased parameter's alias is missing from the data |
| Utils.KwargsValues | pycordia/utils.py:14-19 | only parameters are passed: an aliased one from data[alias], another from data when present |
| Components.KindOf | pycordia/interactions/components.py:6-9 | a ComponentType exists exactly for the values 1 to 3, and its value is the input |
| Components.EnumValues | pycordia/interactions/components.py:6-17 | member values are 1 to 3 and 1 to 5, distinct, and decoding a value gives its member back |
| Components.EnumValueOf | pycordia/interactions/components.py:72 | `.value` of an enum member, and AttributeError for anything else |
| Components.VerifyComponent | pycordia/interactions/components.py:75-83 | only ComponentError is raised |
| Components.ButtonAcceptedIff | pycordia/interactions/components.py:75-83 | a button is accepted exactly with a truthy custom id and a falsy url, with each rejection's message |
| Components.ParamNamesPublic | pycordia/interactions/components.py:21-23 | the constructor parameter names are public |
| Components.ButtonExported | pycordia/interactions/components.py:69-70 | `obj_to_dict` drops only the private callback |
| Components.ButtonToJson | pycordia/interactions/components.py:69-73 | the public attributes with the style replaced by its value and "type" 2 appended; a style without `.value` raises |
| Components.FromJsonFields | pycordia/interactions/components.py:63-67 | from_json succeeds exactly when style and label are present, the style decodes as a ComponentType, custom_id is truthy and url is falsy; each field is read or defaulted |
| Components.FromJsonRejectsUpperStyles | pycordia/interactions/components.py:66 | styles 4 (danger) and 5 (link) make from_json raise |
| Components.FromJsonToJson | pycordia/interactions/components.py:63-73 | reading a button and writing it back keeps style, label, custom_id, disabled, emoji and url (each as read or defaulted) and adds "type" 2 |
| Components.Button.Init | pycordia/interactions/components.py:49-59 | the attributes as assigned, with no callback |
| Components.Button.New | pycordia/interactions/components.py:48-61 | construction succeeds exactly when `VerifyComponent` accepts, with the same error otherwise |
| Components.Button.FromJson | pycordia/interactions/components.py:63-67 | agrees with `FromJsonOf` |
| Components.Button.ToJson | pycordia/interactions/components.py:69-73 | agrees with `ToJsonOf` on the current attributes |
| Components.Button.OnClick | pycordia/interactions/components.py:85-89 | stores the callback and changes nothing else |
| Components.OptionOf | pycordia/interactions/components.py:20-29 | an option builds exactly when label and value are given |
| Components.OptionToJsonExact | pycordia/interactions/components.py:35-36 | to_json has exactly the five attributes, in order |
| Components.OptionRoundTrip | pycordia/interactions/components.py:31-36 | writing an option out and reading it back gives the same option |
| Components.OptionFromJsonDefaults | pycordia/interactions/components.py:31-33 | reading needs label and value; missing optional keys take their defaults |
| Interactions.OptionTypeOfInt | pycordia/_interactions.py:6-16 | a member exists exactly for 1 to 10, and its value is the input |
| Interactions.OptionTypeRoundTrip | pycordia/_interactions.py:6-16 | decoding a member's value gives the member back |
| Interactions.OptionTypeOf | pycordia/_interactions.py:37 | a member is returned as it is; a JSON value decodes exactly for 1 to 10 |
| Interactions.IntOfValue | pycordia/_interactions.py:21 | `int()` of an enum member raises TypeError |
| Interactions.Need | pycordia/_interactions.py:20 | `data[k]` succeeds exactly when k is present, with its value |
| Interactions.ItemsOf | pycordia/_interactions.py:23 | a missing key gives an empty list |
| Interactions.Append | pycordia/_interactions.py:26 | only a list can be appended to, and the item goes last |
| Interactions.DataOptionFields | pycordia/_interactions.py:19-23 | name and type are required and the type must convert and decode; value and options are read or defaulted |
| Interactions.DataOptionTypeConversion | pycordia/_interactions.py:21 | a type "3" is read as STRING, but an enum member as type raises |
| Interactions.AddDataOptionAppends | pycordia/_interactions.py:25-32 | add_option appends exactly one option with the given name, value and type |
| Interactions.AddDataOptionNeedsList | pycordia/_interactions.py:26 | an options attribute that is not a list cannot take another option |
| Interactions.CommandOptionDefaults | pycordia/_interactions.py:36-42 | type, name and description are required; required, choices and options default; a text type raises |
| Interactions.AddChoiceAppends | pycordia/_interactions.py:44-48 | add_choice appends one name/value entry at the end |
| Interactions.AddOptionAppends | pycordia/_interactions.py:50-58 | add_option with a member type appends one option with that type and the given fields |
| Interactions.CommandTypeOf | pycordia/_interactions.py:62-65 | a CommandType exists exactly for 1 to 3 |
| Interactions.AppCommandDefaults | pycordia/_interactions.py:67-79 | the command type is None when "type" is absent or falsy; guild_id and default_permission default |
| Interactions.ZeroTypeIsNone | pycordia/_interactions.py:71-74 | a type of 0 gives no command type rather than an error |
| Interactions.AppCommandInteractionDataOption.Init | pycordia/_interactions.py:19-23 | keeps the attributes it is given |
| Interactions.AppCommandInteractionDataOption.New | pycordia/_interactions.py:18-23 | agrees with `DataOptionOf` |
| Interactions.AppCommandInteractionDataOption.AddOption | pycordia/_interactions.py:25-32 | agrees with `DataOptionAdded`, leaving the attributes unchanged on error |
| Interactions.AppCommandOption.Init | pycordia/_interactions.py:36-42 | keeps the attributes it is given |
| Interactions.AppCommandOption.New | pycordia/_interactions.py:35-42 | agrees with `CommandOptionOf` |
| Interactions.AppCommandOption.AddChoice | pycordia/_interactions.py:44-48 | agrees with `ChoiceAdded` |
| Interactions.AppCommandOption.AddOption | pycordia/_interactions.py:50-58 | agrees with `OptionAdded` |
| Interactions.InteractionClient.constructor | pycordia/_interactions.py:83-85 | the registry starts empty |
| Interactions.InteractionClient.SlashCommand | pycordia/_interactions.py:87-93 | registers the function under the name |
| Interactions.SlashCommandReplaces | pycordia/_interactions.py:89 | registering a name again replaces its function and keeps every other entry and the key order |
| UserModel.FromJson | pycordia/models/user.py:3-18 | a user builds exactly from a dict |
| UserModel.FieldFromPayload | pycordia/models/user.py:3-18 | each attribute is the payload's value under its key, or None |
| UserModel.EmptyUser | pycordia/models/user.py:3-18 | `User({})` has every attribute None |
| UserModel.MentionIsUnclosed | pycordia/models/user.py:23-25 | the mention is "<@!" and the id, and never ends with ">" |
| UserModel.ReprSplitsAtHash | pycordia/models/user.py:20-21 | the repr is the username, "#", and the discriminator |
| UserModel.AvatarUrlShape | pycordia/models/user.py:27-29 | the avatar URL is the CDN prefix and ends with the hash and ".png" |
| GuildModel.RoleTagsFromJson | pycordia/models/guild.py:97-100 | role tags build exactly from a dict |
| GuildModel.RoleFromJson | pycordia/models/guild.py:129-142 | colour equals color, and absent tags give an empty list |
| GuildModel.RoleOrderByIdOnly | pycordia/models/guild.py:145-154 | `>` is `<` reversed; position and name play no part in any comparison |
| GuildModel.RoleTrichotomy | pycordia/models/guild.py:145-154 | for text ids exactly one of `<`, `==`, `>` holds |
| GuildModel.RoleOrderNeedsIds | pycordia/models/guild.py:148-154 | comparing with a missing id raises |
| GuildModel.OptionalUser | pycordia/models/guild.py:20 | a falsy user payload gives None; a truthy one must be a dict |
| GuildModel.EmojiFromJson | pycordia/models/guild.py:16-24 | absent user and roles give None and an empty list |
| GuildModel.MemberFromJson | pycordia/models/guild.py:49-63 | joined_at, deaf and mute are required; roles and user default |
| GuildModel.EmptyMemberFails | pycordia/models/guild.py:56 | `Member({})` raises KeyError('joined_at') |
| GuildModel.MemberEq | pycordia/models/guild.py:65-67 | equality returns None without a user; with one it raises, because User has no `id` attribute |
| GuildModel.MemberEqNeverDecides | pycordia/models/guild.py:65-67 | member equality never answers True or False, not even for a member and itself |
| GuildModel.DecodeRange | pycordia/models/guild.py:160-191 | an enum with values 0 to hi decodes exactly those values; anything else raises ValueError |
| GuildModel.EnumDomains | pycordia/models/guild.py:160-191 | the six guild enum domains, value by value |
| GuildModel.ReadHead | pycordia/models/guild.py:196-211 | the reads from id to explicit_content_filter succeed exactly under `HeadOk`; the three enums hold their payload values |
| GuildModel.ReadLists | pycordia/models/guild.py:212-215 | roles, emojis, features and mfa_level succeed exactly under `ListsOk`; the MFA level holds its payload value |
| GuildModel.ReadTail | pycordia/models/guild.py:216-242 | the remaining reads succeed exactly under `TailOk`; members and channels default to empty; premium tier and NSFW level hold their payload values |
| GuildModel.GuildFromJson | pycordia/models/guild.py:195-249 | a guild builds exactly for a payload that meets every condition; each of the six enums holds its payload value; member_count defaults to -1 |
| GuildModel.GuildNeedsRequiredKeys | pycordia/models/guild.py:195-242 | a built guild's payload is a dict holding every required key |
| GuildModel.GuildRejectsBadEnum | pycordia/models/guild.py:209-242 | an enum value outside its domain makes the construction fail |
| ChannelModel.DecodeChannelType | pycordia/models/channel.py:18-35 | a channel type decodes exactly for the eleven listed values |
| ChannelModel.ChannelTypeDomain | pycordia/models/channel.py:18-29 | the decodable integers are 0 to 6 and 10 to 13 |
| ChannelModel.OptionalTimestamp | pycordia/models/channel.py:61 | None exactly for a falsy value |
| ChannelModel.FromJson | pycordia/models/channel.py:31-75 | id and type are required and the type must decode; id is kept |
| ChannelModel.CountsDefaultToMinusOne | pycordia/models/channel.py:65-73 | message_count, member_count and the archive duration default to -1 |
| ChannelModel.SameIsEquivalence | pycordia/models/channel.py:83-84 | equality is an equivalence that looks only at guild id and id |
| ChannelModel.MentionAndTextShape | pycordia/models/channel.py:80-93 | the mention wraps the id in "<#" and ">"; the text form is "#" and the name |
| ChannelModel.GetMessagesQuery | pycordia/models/channel.py:139-143 | the query-building steps agree with `MessagesQuery` |
| ChannelModel.QuerySeparators | pycordia/models/channel.py:139-143 | when no value contains "&", the query has one "&" per truthy optional argument |
| ChannelModel.DefaultQuery | pycordia/models/channel.py:123-139 | with only the default limit the query is "?limit=50" |
| ChannelModel.MentionFromJson | pycordia/models/channel.py:169-173 | a channel mention builds exactly from a dict with id, guild_id, type and name |
| MessageModel.ActivityFromJson | pycordia/models/message.py:37-43 | no type when "type" is absent or None; otherwise the type must decode |
| MessageModel.ActivityTypeDomain | pycordia/models/message.py:31-41 | the activity types that decode are exactly 1, 2, 3 and 5 |
| MessageModel.ApplicationFromJson | pycordia/models/message.py:51-66 | builds exactly from a dict whose owner builds as a user |
| MessageModel.ReactionFromJson | pycordia/models/message.py:74-77 | needs a dict; an absent emoji gives an emoji without a user |
| MessageModel.StickerFromJson | pycordia/models/message.py:86-89 | builds exactly from a dict |
| MessageModel.InteractionFromJson | pycordia/models/message.py:146-150 | builds exactly from a dict whose user builds |
| MessageModel.AttachmentFromJson | pycordia/models/message.py:109-117 | builds exactly from a dict |
| MessageModel.AttachmentToDict | pycordia/models/message.py:119-133 | the eight keys in order, each with its attribute |
| MessageModel.AttachmentRoundTrip | pycordia/models/message.py:109-133 | reading an attachment back from its own dict gives the same attachment |
| MessageModel.AttachmentDictFromPayload | pycordia/models/message.py:109-133 | under each key, `Attachment(d).to_dict()` holds d's value, or None |
| MessageModel.ReferenceFromJson | pycordia/models/message.py:154-167 | a falsy ref_data gives four Nones; otherwise it must be a dict and its values are read |
| MessageModel.ReferenceToDict | pycordia/models/message.py:174-180 | the four attributes under their payload keys |
| MessageModel.ReferenceRoundTrip | pycordia/models/message.py:154-183 | a reference read from a dict and written back gives the dict's values, and equals the one read back |
| MessageModel.EmptyReference | pycordia/models/message.py:164-180 | an empty ref_data gives a dict of four Nones |
| MessageModel.OrEmptyList | pycordia/models/message.py:214-216 | `x or []` |
| MessageModel.ReadHead | pycordia/models/message.py:194-196 | author and member must build |
| MessageModel.ReadMentions | pycordia/models/message.py:203-212 | absent mention lists give empty lists |
| MessageModel.MessageFromJson | pycordia/models/message.py:188-235 | falsy attachments, embeds and reactions become [] |
| MessageModel.MessageNeedsMember | pycordia/models/message.py:196 | a payload without a member raises KeyError('joined_at') |
| MessageModel.HeadNeedsMember | pycordia/models/message.py:194-196 | the same failure, at the author and member reads |
| MessageModel.ReferencedMessageNeedsData | pycordia/models/message.py:169-172 | a reference without message data raises KeyError('joined_at') when read |
| MessageModel.SendPayload | pycordia/models/message.py:265-270 | the four keys in order; a falsy content becomes ""; no embeds give [] |
| MessageModel.DefaultSend | pycordia/models/message.py:238-270 | with the defaults the body is content "", tts False, mentions {} and embeds [] |
| MessageModel.EditPayload | pycordia/models/message.py:300-307 | a falsy content falls back to the message's; without new embeds it iterates the message's embeds: a non-iterable raises TypeError, a non-empty one raises AttributeError (payload dicts have no `to_dict`), an empty one gives [] |
| EmbedModel.ImageDict | pycordia/models/embed.py:55-61 | the four keys in order, each with its argument |
| EmbedModel.FooterDict | pycordia/models/embed.py:116-120 | the proxy URL goes under "proxy_icon_url" |
| EmbedModel.AuthorDict | pycordia/models/embed.py:135-140 | the proxy URL goes under "proxy_icon_url" |
| EmbedModel.ProviderDict | pycordia/models/embed.py:152-155 | name and url, in order |
| EmbedModel.FieldEntry | pycordia/models/embed.py:49-53 | name, value and inline, in order |
| EmbedModel.CreateArgsOverrideDefaults | pycordia/models/embed.py:29-38 | create sets all four keys, so an omitted argument becomes None rather than the default |
| EmbedModel.EmbedKeysDistinct | pycordia/models/embed.py:159-173 | the thirteen `to_dict` keys are distinct |
| EmbedModel.Embed.constructor | pycordia/models/embed.py:4-26 | each attribute is read or defaulted; colour is color; fields and the six private dicts start empty |
| EmbedModel.Embed.Create | pycordia/models/embed.py:28-38 | the four arguments are kept; type is "rich", timestamp "" and fields empty |
| EmbedModel.Embed.AddField | pycordia/models/embed.py:40-53 | appends one field entry |
| EmbedModel.Embed.SetThumbnail | pycordia/models/embed.py:68-75 | stores the image dict |
| EmbedModel.Embed.SetImage | pycordia/models/embed.py:82-89 | stores the image dict |
| EmbedModel.Embed.SetVideo | pycordia/models/embed.py:96-103 | stores the image dict |
| EmbedModel.Embed.SetFooter | pycordia/models/embed.py:110-120 | stores the footer dict |
| EmbedModel.Embed.SetAuthor | pycordia/models/embed.py:128-140 | stores the author dict |
| EmbedModel.Embed.SetProvider | pycordia/models/embed.py:147-155 | stores the provider dict |
| EmbedModel.Embed.ToDict | pycordia/models/embed.py:157-173 | the thirteen keys in order, each holding its current attribute |
| EmbedModel.EmbedEntries | pycordia/models/embed.py:159-173 | the same entries on plain values |
| EmbedModel.BuildExample | pycordia/models/embed.py:28-75 | after create, two add_field calls and a thumbnail, the dict holds exactly those |
| Json.MakeOptional | pycordia/models/guild.py:57 | None for a falsy value; otherwise the conversion's result |
| Json.Less | pycordia/models/guild.py:150 | comparing with None raises |
| Json.TextLessTotal | pycordia/models/guild.py:150-154 | text ordering is total |
| Json.TextLessAsymmetric | pycordia/models/guild.py:150-154 | text ordering is asymmetric |
| Json.TextLessIrreflexive | pycordia/models/guild.py:150-154 | text ordering is irreflexive |
| Json.Subscript | pycordia/errors/http.py:24 | `d[k]` succeeds exactly for a dict holding k, and otherwise raises KeyError |
| Json.Get | pycordia/errors/http.py:25 | `d.get(k, default)` needs a dict and gives the default for an absent key |
| Json.Put | pycordia/_interactions.py:89 | after `d[k] = v`, k holds v and every other key is unchanged |
| Json.PutKeys | pycordia/_interactions.py:89 | overwriting keeps the key order, and a new key goes last |
| Json.FromItems | pycordia/errors/http.py:52 | `dict(items)` has unique keys |
| Json.FromItemsDistinct | pycordia/errors/http.py:52 | `dict(items)` of pairs with distinct keys keeps them all, in order |
| Json.Iterate | pycordia/errors/http.py:33 | only lists, dicts and texts can be iterated |
| Json.MapAll | pycordia/models/guild.py:212 | a comprehension succeeds exactly when every element converts, giving the conversions in order |
| Json.IntOf | pycordia/_interactions.py:21 | `int()` keeps ints, parses texts, and raises TypeError for None, lists and dicts |
| Py.Lower | pycordia/client.py:67 | lower-casing is character by character, ASCII capitals to small letters |
| Py.LowerIdempotent | pycordia/client.py:73-79 | lower-casing twice is lower-casing once |
| Py.Strip | pycordia/errors/http.py:36 | the result is an infix of the input that neither starts nor ends with whitespace |
| Py.StripKeepsInnerText | pycordia/errors/http.py:36 | strip removes exactly the whitespace around a text whose ends are not whitespace |
| Py.IntToDecimal | pycordia/errors/general.py:28 | `str(n)` is non-empty and starts with "-" exactly for negatives |
| Py.ParseInt | pycordia/events.py:18 | `int(s)` succeeds only for text holding a digit |
| Py.ParseIntOfDecimal | pycordia/events.py:18 | `int(str(n)) == n` |
| Py.FiveHundredsStartWithFive | pycordia/errors/http.py:14 | every status from 500 to 599 starts with "5" |

## Left out

- I/O and concurrency are not modelled:
  - The socket, the HTTP session, `asyncio.sleep` and `asyncio.gather` are left out.
  - Frames come in as a sequence, and effects (`Send`, `CloseSocket`, `Invoke`,
    `Heartbeat`) go out as a sequence.
  - The two gateway loops are modelled one pass at a time; their interleaving is not
    modelled.
- `platform.system()`, `platform.platform()`, `pycordia.__version__` and `json.dumps` are
  parameters: the OS name, and the payload text already rendered.
- `pycordia.api_url` and `pycordia.ws_url` are inputs. `pycordia/__init__.py` is not part
  of this model.
- Gateway.KeepAlive: the sleep of `heartbeat_interval / 1000` seconds is a float delay
  and is not modelled, only the frame that follows it.
- Gateway.CloseAlwaysRaises: `websocket.py` imports `GatewayError` from `pycordia.errors`,
  and both an `errors.py` and an `errors/` package exist. The model raises the error's
  code and extra text; which class it is stays open. Both renderings are modelled:
  GeneralErrors.Text and QueryErrors.Text.
- `Client.run`, `__create_ws`, `DiscordWebSocket.listen` and the `print` in
  `call_event_handler` are left out because they are I/O. The decorator wrappers returned
  by `event`, `on_click` and `slash_command` are left out; only the registration is
  modelled.
- A handler is a name and an identity. Awaiting it is the `Call` that dispatch returns.
- Gateway.Receive / DiscordWebSocket.ListenSocket: exceptions raised by the routing in
  `call_event_handler` end the loop, but the body of a user's handler is not visible to
  the model, so an exception raised inside the handler itself is not modelled; an
  awaited handler is taken to return.
- Py.Lower: only the ASCII capitals A to Z are lowered. Python's `str.lower` also folds
  the rest of Unicode; the event names Discord sends are ASCII.
- ClientModel.DeleteDispatchRaises: `client.py` gives `MessageDeleteEvent` two arguments
  where it takes three. This is modelled as written, so a delete with a handler raises
  TypeError.
- Intents are `bv16`. Python ints are unbounded, but every value fits in 15 bits.
- `utils.make_optional` is called from guild.py and channel.py but is not defined in
  `pycordia/utils.py`. It is modelled as "convert when truthy, else None".
- `datetime.fromisoformat` is not modelled. A truthy timestamp is kept as its JSON value,
  and the `joined_at` read is modelled only as the required key.
- `inspect.signature(obj)` becomes the parameter list, passed as input.
- `obj(**new_inf)` is modelled for Button and SelectMenuOption through their required
  keywords. Unknown keywords cannot arise, because only parameters are collected.
- Python equality is structural on JSON values. The exceptions are `1 == True` and the
  comparisons with integer constants (opcodes, enum values), which go through
  `IntValue` as Python does. Dict equality ignoring order is not modelled.
- Py.ParseInt: underscores between digits and non-ASCII digits, which Python's `int`
  accepts, are not accepted. Surrounding whitespace is the set `str.isspace` accepts.
- The REST helpers are left out: `Channel.from_id`, `get_message`, `get_messages` (only
  its query string is modelled), `get_pinned_messages`, `Message.from_id`, `delete`,
  `pin`, `unpin`, `Guild.from_id`, `get_member`, `get_guild_members`,
  `ChannelMention.get_channel`, and `api.py` itself. Each is a network call around the
  modelled constructors and payloads. `Message.send` and `edit` are modelled up to the
  JSON body.
- `SelectMenu.__init__` does nothing. `ActionRow` is commented out in the source.
  `models/presence.py` and `interactions/models.py` are not part of this model.
- The `repr` methods are left out, except `User.__repr__`, whose text other classes
  embed.
- Interactions: the `options` and `choices` lists are values, so the aliasing of a
  list default that `data.get("options", [])` would share is not modelled.
- Embed: the private dicts are fields of the class. The properties that return them
  are read directly.
