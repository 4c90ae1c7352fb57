/** pycordia/_interactions.py: application-command options, commands and
    the slash-command registry. Values handed to the constructors are JSON
    values or members of `AppCommandOptionTypes`; a nested option appended
    by `add_option` is kept as the value of its attributes. */
module Interactions {
  import opened Py
  import opened Json

  /** `AppCommandOptionTypes`, values 1..10. */
  datatype OptionType =
    | SubCommand | SubCommandGroup | StringType | IntegerType | BooleanType
    | UserType | ChannelType | RoleType | MentionableType | NumberType

  function OptionTypeValue(t: OptionType): int {
    match t
    case SubCommand => 1
    case SubCommandGroup => 2
    case StringType => 3
    case IntegerType => 4
    case BooleanType => 5
    case UserType => 6
    case ChannelType => 7
    case RoleType => 8
    case MentionableType => 9
    case NumberType => 10
  }

  /** The member with value `n`, if any. */
  function OptionTypeOfInt(n: int): (r: Option<OptionType>)
    ensures r.Some? <==> 1 <= n <= 10
    ensures r.Some? ==> OptionTypeValue(r.value) == n
  {
    if n == 1 then Some(SubCommand)
    else if n == 2 then Some(SubCommandGroup)
    else if n == 3 then Some(StringType)
    else if n == 4 then Some(IntegerType)
    else if n == 5 then Some(BooleanType)
    else if n == 6 then Some(UserType)
    else if n == 7 then Some(ChannelType)
    else if n == 8 then Some(RoleType)
    else if n == 9 then Some(MentionableType)
    else if n == 10 then Some(NumberType)
    else None
  }

  /** Decoding a member's value gives the member back. */
  lemma OptionTypeRoundTrip(t: OptionType)
    ensures OptionTypeOfInt(OptionTypeValue(t)) == Some(t)
  {
  }

  /** A value passed to a constructor. */
  datatype Value = J(json: Json) | Member(member: OptionType)

  /** `AppCommandOptionTypes(x)`: a member is returned as it is, any other
      value is looked up among the member values. */
  function OptionTypeOf(x: Value): (r: Result<OptionType>)
    ensures x.Member? ==> r == Ok(x.member)
    ensures x.J? ==> (r.Ok? <==> IntValue(x.json).Some? && 1 <= IntValue(x.json).value <= 10)
  {
    match x
    case Member(t) => Ok(t)
    case J(j) =>
      match IntValue(j)
      case Some(n) =>
        (match OptionTypeOfInt(n)
         case Some(t) => Ok(t)
         case None => Err(ValueError("not a valid AppCommandOptionTypes")))
      case None => Err(ValueError("not a valid AppCommandOptionTypes"))
  }

  /** `int(x)`: an enum member is not a number. */
  function IntOfValue(x: Value): (r: Result<int>)
    ensures x.Member? ==> r.Err? && r.error.TypeError?
  {
    match x
    case J(j) => IntOf(j)
    case Member(_) => Err(TypeError("int() argument must be a string or a number"))
  }

  /** `d[k]` on a dict of values. */
  function Need(d: Dict<Value>, k: string): (r: Result<Value>)
    ensures r.Ok? <==> HasKey(d, k)
    ensures r.Ok? ==> Some(r.value) == Lookup(d, k)
  {
    match Lookup(d, k)
    case Some(v) => Ok(v)
    case None => Err(KeyError(k))
  }

  /** An entry of an `options` or `choices` list: a raw JSON value as
      received, or an option appended by `add_option`. */
  datatype Item = Raw(json: Json) | DataOptionItem(dataOption: DataOption) | OptionItem(option: CommandOption)

  /** An `options` or `choices` attribute: a list, or whatever else `data`
      held under that key. */
  datatype Items = List(items: seq<Item>) | NotList(value: Value)

  /** `data.get(key, [])` seen as a list attribute. */
  function ItemsOf(d: Dict<Value>, key: string): (r: Items)
    ensures !HasKey(d, key) ==> r == List([])
  {
    match Lookup(d, key)
    case None => List([])
    case Some(v) =>
      if v.J? && v.json.JArr? then List(seq(|v.json.items|, i requires 0 <= i < |v.json.items| => Raw(v.json.items[i])))
      else NotList(v)
  }

  /** `items.append(x)`: only a list has `append`. */
  function Append(items: Items, x: Item): (r: Result<Items>)
    ensures items.List? <==> r.Ok?
    ensures items.List? ==> r.value == List(items.items + [x])
  {
    match items
    case List(xs) => Ok(List(xs + [x]))
    case NotList(_) => Err(AttributeError("object has no attribute 'append'"))
  }

  // ---------------------------------------------------------------------
  // AppCommandInteractionDataOption

  /** The attributes of an `AppCommandInteractionDataOption`. */
  datatype DataOption = DataOption(name: Value, commandType: OptionType, value: Value, options: Items)

  /** `AppCommandInteractionDataOption(data)`: `name` and `type` are
      required, the type goes through `int` and then the enum, `value`
      defaults to None and `options` to `[]`. */
  function DataOptionOf(data: Dict<Value>): Result<DataOption> {
    var name :- Need(data, "name");
    var ty :- Need(data, "type");
    var n :- IntOfValue(ty);
    var t :- match OptionTypeOfInt(n)
             case Some(t) => Ok(t)
             case None => Err(ValueError("not a valid AppCommandOptionTypes"));
    Ok(DataOption(name, t, Lookup(data, "value").GetOr(J(JNull)), ItemsOf(data, "options")))
  }

  /** When it is built, the data option has the given name, the type whose
      value is `int(data["type"])`, `value` None when absent and `options`
      empty when absent. It is built exactly when both keys are present and
      the type converts to a member value. */
  lemma DataOptionFields(data: Dict<Value>)
    ensures DataOptionOf(data).Ok? <==>
      HasKey(data, "name") && HasKey(data, "type")
      && IntOfValue(Lookup(data, "type").value).Ok?
      && 1 <= IntOfValue(Lookup(data, "type").value).value <= 10
    ensures DataOptionOf(data).Ok? ==>
      var o := DataOptionOf(data).value;
      Some(o.name) == Lookup(data, "name")
      && OptionTypeValue(o.commandType) == IntOfValue(Lookup(data, "type").value).value
      && (!HasKey(data, "value") ==> o.value == J(JNull))
      && (!HasKey(data, "options") ==> o.options == List([]))
  {
  }

  /** A type given as text is read through `int`, so "3" is a string
      option; an enum member is refused, since `int()` does not take one. */
  lemma DataOptionTypeConversion(name: Value)
    ensures DataOptionOf([("name", name), ("type", J(JStr("3")))]).Ok?
    ensures DataOptionOf([("name", name), ("type", J(JStr("3")))]).value.commandType == StringType
    ensures DataOptionOf([("name", name), ("type", Member(StringType))]).Err?
  {
    var d := [("name", name), ("type", J(JStr("3")))];
    LookupFirst(d, 0, "name");
    LookupFirst(d, 1, "type");
    assert ParseInt("3") == Some(3) by {
      assert DigitsValue("3") == 3 by {
        assert "3"[..0] == [];
      }
    }
    var e := [("name", name), ("type", Member(StringType))];
    LookupFirst(e, 1, "type");
  }

  /** What `add_option` does to the data option's attributes: `append` is
      looked up before the new option is built. */
  function DataOptionAdded(o: DataOption, name: Json, value: Json, commandType: Value): Result<DataOption> {
    if !o.options.List? then Err(AttributeError("object has no attribute 'append'"))
    else
      var child :- DataOptionOf([("name", J(name)), ("value", J(value)), ("type", commandType)]);
      var opts :- Append(o.options, DataOptionItem(child));
      Ok(o.(options := opts))
  }

  /** `add_option` appends exactly one option carrying the given name, value
      and type, keeping the earlier options in order and everything else. */
  lemma AddDataOptionAppends(o: DataOption, name: Json, value: Json, n: int)
    requires o.options.List? && 1 <= n <= 10
    ensures var r := DataOptionAdded(o, name, value, J(JInt(n)));
      r.Ok? && r.value.name == o.name && r.value.commandType == o.commandType && r.value.value == o.value
      && r.value.options.List? && |r.value.options.items| == |o.options.items| + 1
      && r.value.options.items[..|o.options.items|] == o.options.items
    ensures var r := DataOptionAdded(o, name, value, J(JInt(n)));
      var child := r.value.options.items[|o.options.items|];
      child.DataOptionItem? && child.dataOption.name == J(name) && child.dataOption.value == J(value)
      && OptionTypeValue(child.dataOption.commandType) == n && child.dataOption.options == List([])
  {
    var d := [("name", J(name)), ("value", J(value)), ("type", J(JInt(n)))];
    LookupFirst(d, 0, "name");
    LookupFirst(d, 1, "value");
    LookupFirst(d, 2, "type");
    NoSuchKey(d, "options");
    var xs := o.options.items;
    var child := DataOptionOf(d).value;
    assert (xs + [DataOptionItem(child)])[..|xs|] == xs;
  }

  /** A data option whose `options` is not a list cannot take another one. */
  lemma AddDataOptionNeedsList(o: DataOption, name: Json, value: Json, commandType: Value)
    requires !o.options.List?
    ensures DataOptionAdded(o, name, value, commandType) == Err(AttributeError("object has no attribute 'append'"))
  {
  }

  // ---------------------------------------------------------------------
  // AppCommandOption

  /** The attributes of an `AppCommandOption`. */
  datatype CommandOption = CommandOption(
    optionType: OptionType, name: Value, description: Value, required: Value, choices: Items, options: Items)

  /** `AppCommandOption(data)`: the type goes straight to the enum (no
      `int`); `required` defaults to False, `choices` and `options` to `[]`. */
  function CommandOptionOf(data: Dict<Value>): Result<CommandOption> {
    var ty :- Need(data, "type");
    var t :- OptionTypeOf(ty);
    var name :- Need(data, "name");
    var description :- Need(data, "description");
    Ok(CommandOption(t, name, description, Lookup(data, "required").GetOr(J(JBool(false))),
                     ItemsOf(data, "choices"), ItemsOf(data, "options")))
  }

  /** The defaults, and the requirement of `type`, `name` and `description`:
      a member or a member value is accepted as type, but text is not (no
      `int` here, unlike the data option). */
  lemma CommandOptionDefaults(data: Dict<Value>)
    ensures CommandOptionOf(data).Ok? <==>
      HasKey(data, "type") && OptionTypeOf(Lookup(data, "type").value).Ok?
      && HasKey(data, "name") && HasKey(data, "description")
    ensures CommandOptionOf(data).Ok? ==>
      var o := CommandOptionOf(data).value;
      (!HasKey(data, "required") ==> o.required == J(JBool(false)))
      && (!HasKey(data, "choices") ==> o.choices == List([]))
      && (!HasKey(data, "options") ==> o.options == List([]))
      && Some(o.name) == Lookup(data, "name") && Some(o.description) == Lookup(data, "description")
    ensures HasKey(data, "type") && Lookup(data, "type").value.J? && Lookup(data, "type").value.json.JStr? ==>
      CommandOptionOf(data).Err?
  {
  }

  /** `add_choice(name=..., value=...)` */
  function ChoiceAdded(o: CommandOption, name: Json, value: Json): Result<CommandOption> {
    var cs :- Append(o.choices, Raw(JObj([("name", name), ("value", value)])));
    Ok(o.(choices := cs))
  }

  /** `add_choice` appends one `{"name", "value"}` entry at the end and
      changes nothing else; without a list of choices it raises. */
  lemma AddChoiceAppends(o: CommandOption, name: Json, value: Json)
    ensures ChoiceAdded(o, name, value).Ok? <==> o.choices.List?
    ensures o.choices.List? ==>
      (ChoiceAdded(o, name, value) == Ok(o.(choices := List(o.choices.items + [Raw(JObj([("name", name), ("value", value)]))]))))
  {
  }

  /** `add_option(option_type=..., name=..., description=..., required=...)` */
  function OptionAdded(o: CommandOption, optionType: Value, name: Json, description: Json, required: Json): Result<CommandOption> {
    if !o.options.List? then Err(AttributeError("object has no attribute 'append'"))
    else
      var child :- CommandOptionOf([("type", optionType), ("name", J(name)), ("description", J(description)),
                                    ("required", J(required))]);
      var opts :- Append(o.options, OptionItem(child));
      Ok(o.(options := opts))
  }

  /** `add_option` with a member type appends one option with that type,
      name, description and required flag (False by default), and no
      choices or options of its own; earlier options are kept in order. */
  lemma AddOptionAppends(o: CommandOption, t: OptionType, name: Json, description: Json, required: Json)
    requires o.options.List?
    ensures var r := OptionAdded(o, Member(t), name, description, required);
      r == Ok(o.(options := List(o.options.items + [OptionItem(
        CommandOption(t, J(name), J(description), J(required), List([]), List([])))])))
  {
    var d := [("type", Member(t)), ("name", J(name)), ("description", J(description)), ("required", J(required))];
    LookupFirst(d, 0, "type");
    LookupFirst(d, 1, "name");
    LookupFirst(d, 2, "description");
    LookupFirst(d, 3, "required");
    NoSuchKey(d, "choices");
    NoSuchKey(d, "options");
  }

  // ---------------------------------------------------------------------
  // AppCommand

  /** `AppCommand.CommandTypes`, values 1..3. */
  datatype CommandType = ChatInput | UserCommand | MessageCommand

  function CommandTypeValue(t: CommandType): int {
    match t
    case ChatInput => 1
    case UserCommand => 2
    case MessageCommand => 3
  }

  function CommandTypeOf(j: Json): (r: Result<CommandType>)
    ensures r.Ok? <==> IntValue(j).Some? && 1 <= IntValue(j).value <= 3
    ensures r.Ok? ==> CommandTypeValue(r.value) == IntValue(j).value
  {
    match IntValue(j)
    case Some(1) => Ok(ChatInput)
    case Some(2) => Ok(UserCommand)
    case Some(3) => Ok(MessageCommand)
    case _ => Err(ValueError("not a valid CommandTypes"))
  }

  /** The attributes of an `AppCommand`. */
  datatype AppCommand = AppCommand(
    userId: Json, commandType: Option<CommandType>, applicationId: Json, guildId: Json,
    name: Json, description: Json, defaultPermission: Json)

  /** `AppCommand(data)` */
  function AppCommandOf(data: Json): Result<AppCommand> {
    var userId :- Subscript(data, "id");
    var ty :- GetOpt(data, "type");
    var commandType :- if Truthy(ty) then (var t :- CommandTypeOf(ty); Ok(Some(t))) else Ok(None);
    var applicationId :- Subscript(data, "application_id");
    var guildId :- GetOpt(data, "guild_id");
    var name :- Subscript(data, "name");
    var description :- Subscript(data, "description");
    var defaultPermission :- Get(data, "default_permissions", JBool(true));
    Ok(AppCommand(userId, commandType, applicationId, guildId, name, description, defaultPermission))
  }

  /** The command type is None exactly when "type" is absent or falsy; the
      default permission is read from "default_permissions" (a
      "default_permission" key is not consulted) and is True when absent. */
  lemma AppCommandDefaults(fs: Dict<Json>)
    requires HasKey(fs, "id") && HasKey(fs, "application_id") && HasKey(fs, "name") && HasKey(fs, "description")
    requires Truthy(FieldOr(fs, "type", JNull)) ==> CommandTypeOf(FieldOr(fs, "type", JNull)).Ok?
    ensures AppCommandOf(JObj(fs)).Ok?
    ensures var c := AppCommandOf(JObj(fs)).value;
      (c.commandType == None <==> !Truthy(FieldOr(fs, "type", JNull)))
      && c.defaultPermission == FieldOr(fs, "default_permissions", JBool(true))
      && c.guildId == FieldOr(fs, "guild_id", JNull)
      && Some(c.userId) == Lookup(fs, "id")
  {
  }

  /** A falsy type, 0 included, gives no command type rather than an error. */
  lemma ZeroTypeIsNone(fs: Dict<Json>)
    requires HasKey(fs, "id") && HasKey(fs, "application_id") && HasKey(fs, "name") && HasKey(fs, "description")
    requires Lookup(fs, "type") == Some(JInt(0))
    ensures AppCommandOf(JObj(fs)).Ok? && AppCommandOf(JObj(fs)).value.commandType == None
  {
  }

  // ---------------------------------------------------------------------
  // The option objects and the registry, as the source mutates them

  /** An `AppCommandInteractionDataOption` object. */
  class AppCommandInteractionDataOption {
    var attrs: DataOption

    constructor Init(attrs: DataOption)
      ensures this.attrs == attrs
    {
      this.attrs := attrs;
    }

    /** `AppCommandInteractionDataOption(data)` */
    static method New(data: Dict<Value>) returns (r: Result<AppCommandInteractionDataOption>)
      ensures r.Ok? <==> DataOptionOf(data).Ok?
      ensures r.Err? ==> r.error == DataOptionOf(data).error
      ensures r.Ok? ==> fresh(r.value) && r.value.attrs == DataOptionOf(data).value
    {
      var o :- DataOptionOf(data);
      var obj := new AppCommandInteractionDataOption.Init(o);
      r := Ok(obj);
    }

    /** `add_option(name=..., value=..., command_type=...)`: on an error the
        object is left as it was. */
    method AddOption(name: Json, value: Json, commandType: Value) returns (r: Result<()>)
      modifies this
      ensures var s := DataOptionAdded(old(attrs), name, value, commandType);
        (s.Ok? ==> r == Ok(()) && attrs == s.value) && (s.Err? ==> r == Err(s.error) && attrs == old(attrs))
    {
      var s := DataOptionAdded(attrs, name, value, commandType);
      if s.Err? {
        return Err(s.error);
      }
      attrs := s.value;
      r := Ok(());
    }
  }

  /** An `AppCommandOption` object. */
  class AppCommandOption {
    var attrs: CommandOption

    constructor Init(attrs: CommandOption)
      ensures this.attrs == attrs
    {
      this.attrs := attrs;
    }

    /** `AppCommandOption(data)` */
    static method New(data: Dict<Value>) returns (r: Result<AppCommandOption>)
      ensures r.Ok? <==> CommandOptionOf(data).Ok?
      ensures r.Err? ==> r.error == CommandOptionOf(data).error
      ensures r.Ok? ==> fresh(r.value) && r.value.attrs == CommandOptionOf(data).value
    {
      var o :- CommandOptionOf(data);
      var obj := new AppCommandOption.Init(o);
      r := Ok(obj);
    }

    /** `add_choice(name=..., value=...)` */
    method AddChoice(name: Json, value: Json) returns (r: Result<()>)
      modifies this
      ensures var s := ChoiceAdded(old(attrs), name, value);
        (s.Ok? ==> r == Ok(()) && attrs == s.value) && (s.Err? ==> r == Err(s.error) && attrs == old(attrs))
    {
      if !attrs.choices.List? {
        return Err(AttributeError("object has no attribute 'append'"));
      }
      attrs := attrs.(choices := List(attrs.choices.items + [Raw(JObj([("name", name), ("value", value)]))]));
      r := Ok(());
    }

    /** `add_option(option_type=..., name=..., description=..., required=False)` */
    method AddOption(optionType: Value, name: Json, description: Json, required: Json := JBool(false))
      returns (r: Result<()>)
      modifies this
      ensures var s := OptionAdded(old(attrs), optionType, name, description, required);
        (s.Ok? ==> r == Ok(()) && attrs == s.value) && (s.Err? ==> r == Err(s.error) && attrs == old(attrs))
    {
      if !attrs.options.List? {
        return Err(AttributeError("object has no attribute 'append'"));
      }
      var child := CommandOptionOf([("type", optionType), ("name", J(name)), ("description", J(description)),
                                    ("required", J(required))]);
      if child.Err? {
        return Err(child.error);
      }
      attrs := attrs.(options := List(attrs.options.items + [OptionItem(child.value)]));
      r := Ok(());
    }
  }

  /** `InteractionClient`: its class-level `registered_commands`, mapping a
      command name to the decorated function (named here by its name). */
  class InteractionClient {
    var registeredCommands: Dict<string>

    constructor()
      ensures registeredCommands == []
    {
      registeredCommands := [];
    }

    /** `@InteractionClient.slash_command(name=...)` applied to `func`: the
        entry for `name` is set, replacing any earlier one in place. */
    method SlashCommand(name: string, func: string)
      modifies this
      ensures registeredCommands == Put(old(registeredCommands), name, func)
    {
      registeredCommands := Put(registeredCommands, name, func);
    }
  }

  /** Registering a name again replaces its function and keeps every other
      entry and the order of names. */
  lemma SlashCommandReplaces(commands: Dict<string>, name: string, func: string, other: string)
    requires other != name
    ensures Lookup(Put(commands, name, func), name) == Some(func)
    ensures Lookup(Put(commands, name, func), other) == Lookup(commands, other)
    ensures HasKey(commands, name) ==> Keys(Put(commands, name, func)) == Keys(commands)
  {
    PutKeys(commands, name, func);
  }
}
