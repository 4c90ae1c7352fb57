/** pycordia/interactions/components.py: the component enums, buttons and
    select-menu options. A Python object is seen through its attributes in
    assignment order, as `obj_to_dict` reads them. */
module Components {
  import opened Py
  import opened Json
  import Utils

  /** `ComponentType` */
  datatype ComponentType = ActionRow | ButtonKind | SelectMenuKind

  function KindValue(k: ComponentType): int {
    match k
    case ActionRow => 1
    case ButtonKind => 2
    case SelectMenuKind => 3
  }

  /** `ComponentType(x)`: the member whose value equals `x`. */
  function KindOf(x: Json): (r: Option<ComponentType>)
    ensures r.Some? <==> IntValue(x).Some? && 1 <= IntValue(x).value <= 3
    ensures r.Some? ==> KindValue(r.value) == IntValue(x).value
  {
    match IntValue(x)
    case Some(1) => Some(ActionRow)
    case Some(2) => Some(ButtonKind)
    case Some(3) => Some(SelectMenuKind)
    case _ => None
  }

  /** `ButtonStyles` */
  datatype ButtonStyle = Primary | Secondary | Success | Danger | Link

  function StyleValue(s: ButtonStyle): int {
    match s
    case Primary => 1
    case Secondary => 2
    case Success => 3
    case Danger => 4
    case Link => 5
  }

  /** The member values: 1..3 for component types, 1..5 for button styles,
      each taken once, and decoding a member's value gives the member back. */
  lemma EnumValues(k: ComponentType, l: ComponentType, s: ButtonStyle, t: ButtonStyle)
    ensures 1 <= KindValue(k) <= 3 && 1 <= StyleValue(s) <= 5
    ensures KindValue(k) == KindValue(l) ==> k == l
    ensures StyleValue(s) == StyleValue(t) ==> s == t
    ensures KindOf(JInt(KindValue(k))) == Some(k)
  {
  }

  /** An attribute value: plain data, an enum member, or a stored callback. */
  datatype Attr =
    | Data(json: Json)
    | StyleMember(style: ButtonStyle)
    | KindMember(kind: ComponentType)
    | Callback(name: string)

  /** `x.value` on an attribute: only enum members have one. */
  function EnumValueOf(a: Attr): (r: Result<int>)
    ensures a.StyleMember? ==> r == Ok(StyleValue(a.style))
    ensures a.KindMember? ==> r == Ok(KindValue(a.kind))
    ensures (a.Data? || a.Callback?) ==> r.Err? && r.error.AttributeError?
  {
    match a
    case StyleMember(s) => Ok(StyleValue(s))
    case KindMember(k) => Ok(KindValue(k))
    case _ => Err(AttributeError("object has no attribute 'value'"))
  }

  // ---------------------------------------------------------------------
  // Button

  /** `Button.__verify_component` */
  function VerifyComponent(customId: Json, url: Json): (r: Result<()>)
    ensures r.Err? ==> r.error.ComponentError?
  {
    if Truthy(url) && Truthy(customId) then Err(ComponentError("A link button cannot have a custom ID."))
    else if !Truthy(customId) then Err(ComponentError("Non-link buttons must contain a custom ID"))
    else Ok(())
  }

  /** A button is accepted exactly when it has a custom id and no url; so
      a link button (with a url) is never accepted, whichever message it
      gets. */
  lemma ButtonAcceptedIff(customId: Json, url: Json)
    ensures VerifyComponent(customId, url).Ok? <==> Truthy(customId) && !Truthy(url)
    ensures Truthy(url) && Truthy(customId) ==>
      VerifyComponent(customId, url) == Err(ComponentError("A link button cannot have a custom ID."))
    ensures !Truthy(customId) ==>
      VerifyComponent(customId, url) == Err(ComponentError("Non-link buttons must contain a custom ID"))
  {
  }

  /** The attributes of a button, in the order `__init__` assigns them. */
  datatype ButtonFields = ButtonFields(
    onClick: Attr, customId: Json, disabled: Json, style: Attr, labelText: Json, emoji: Json, url: Json)

  /** `button.__dict__`: the name-mangled private callback comes first. */
  function AttrsOf(f: ButtonFields): Dict<Attr> {
    [("_Button__on_click_func", f.onClick)] + PublicAttrsOf(f)
  }

  /** The attributes after the callback, named as the parameters. */
  function PublicAttrsOf(f: ButtonFields): Dict<Attr> {
    [("custom_id", Data(f.customId)), ("disabled", Data(f.disabled)), ("style", f.style),
     ("label", Data(f.labelText)), ("emoji", Data(f.emoji)), ("url", Data(f.url))]
  }

  /** `Button.to_json()` on the attributes `attrs`. */
  function ToJsonOf(attrs: Dict<Attr>): Result<Dict<Attr>> {
    var obj := Utils.Exported(attrs, []);
    var obj1 := Put(obj, "type", Data(JInt(KindValue(ButtonKind))));
    var style :- match Lookup(obj1, "style")
                 case Some(s) => Ok(s)
                 case None => Err(KeyError("style"));
    var v :- EnumValueOf(style);
    Ok(Put(obj1, "style", Data(JInt(v))))
  }

  /** The parameter names of both constructors are public. */
  lemma ParamNamesPublic()
    ensures forall i :: 0 <= i < |ButtonParams| ==> !Utils.IsPrivate(ButtonParams[i])
    ensures forall i :: 0 <= i < |OptionParams| ==> !Utils.IsPrivate(OptionParams[i])
  {
    Utils.PublicName("custom_id");
    Utils.PublicName("disabled");
    Utils.PublicName("style");
    Utils.PublicName("label");
    Utils.PublicName("emoji");
    Utils.PublicName("url");
    Utils.PublicName("value");
    Utils.PublicName("description");
    Utils.PublicName("default");
  }

  /** The attribute names of a button, and of its `to_json` dict. */
  const ButtonAttrNames := ["_Button__on_click_func"] + ButtonParams
  const ButtonJsonKeys := ButtonParams + ["type"]

  lemma ButtonNamesDistinct()
    ensures DistinctKeys(ButtonAttrNames) && DistinctKeys(ButtonJsonKeys) && DistinctKeys(OptionParams)
  {
  }

  /** The public attributes of a button are exported as they are. */
  lemma ButtonExported(f: ButtonFields)
    ensures Utils.Exported(AttrsOf(f), []) == AttrsOf(f)[1..]
  {
    var attrs := AttrsOf(f);
    var rest := PublicAttrsOf(f);
    assert attrs[1..] == rest;
    KeysDisplay(rest, ButtonParams);
    assert Keys(attrs) == ButtonAttrNames;
    ButtonNamesDistinct();
    UniqueFromKeys(attrs, ButtonAttrNames);
    assert Utils.IsPrivate(attrs[0].0);
    Utils.ExportedDistinct(attrs);
    Utils.PublicOnlyCons(attrs[0], rest);
    ParamNamesPublic();
    Utils.PublicKeysAllPublic(rest, ButtonParams);
  }

  /** The keys of the public attributes, before and after "type" is added. */
  lemma ButtonKeys(f: ButtonFields)
    ensures Keys(PublicAttrsOf(f)) == ButtonParams
    ensures Keys(PublicAttrsOf(f) + [("type", Data(JInt(2)))]) == ButtonJsonKeys
  {
    KeysDisplay(PublicAttrsOf(f), ButtonParams);
    KeysAppend(PublicAttrsOf(f), [("type", Data(JInt(2)))]);
  }

  lemma StyleReplaced(f: ButtonFields, style: Attr)
    ensures PublicAttrsOf(f)[2 := ("style", style)] == PublicAttrsOf(f.(style := style))
  {
  }

  /** `to_json` gives exactly the six public attributes in order, the style
      replaced by its integer value, then "type" 2; the private callback is
      not exported. A style that is not an enum member has no `.value`. */
  lemma ButtonToJson(f: ButtonFields)
    ensures f.style.StyleMember? || f.style.KindMember? ==>
      ToJsonOf(AttrsOf(f)) ==
        Ok(PublicAttrsOf(f.(style := Data(JInt(EnumValueOf(f.style).value)))) + [("type", Data(JInt(2)))])
    ensures f.style.Data? || f.style.Callback? ==>
      ToJsonOf(AttrsOf(f)) == Err(AttributeError("object has no attribute 'value'"))
  {
    ButtonExported(f);
    var obj := PublicAttrsOf(f);
    assert AttrsOf(f)[1..] == obj;
    ButtonKeys(f);
    HasKeyInKeys(obj, "type");
    var tail := [("type", Data(JInt(2)))];
    PutNew(obj, "type", Data(JInt(2)));
    var obj1 := obj + tail;
    ButtonNamesDistinct();
    LookupDistinct(obj1, ButtonJsonKeys, 2);
    if f.style.StyleMember? || f.style.KindMember? {
      var v := EnumValueOf(f.style).value;
      PutAtDistinct(obj1, ButtonJsonKeys, 2, Data(JInt(v)));
      UpdateInFront(obj, tail, 2, ("style", Data(JInt(v))));
      StyleReplaced(f, Data(JInt(v)));
    }
  }

  /** The parameters of `Button.__init__` in signature order. */
  const ButtonParams := ["custom_id", "disabled", "style", "label", "emoji", "url"]

  const MissingArgument := TypeError("__init__() missing a required keyword-only argument")

  /** `Button(**kw)`: `style` and `label` are required, the rest default;
      the check may raise after the attributes are set. */
  function ButtonOf(kw: Dict<Json>): Result<ButtonFields> {
    if !HasKey(kw, "style") || !HasKey(kw, "label") then Err(MissingArgument)
    else
      var f := ButtonFields(Data(JNull), FieldOr(kw, "custom_id", JNull), FieldOr(kw, "disabled", JBool(false)),
                            Data(Lookup(kw, "style").value), Lookup(kw, "label").value,
                            FieldOr(kw, "emoji", JNull), FieldOr(kw, "url", JNull));
      var _ :- VerifyComponent(f.customId, f.url);
      Ok(f)
  }

  /** `Button.from_json(data)`: the keyword arguments `obj_from_dict`
      collects, the constructor, then `style` decoded as a `ComponentType`. */
  function FromJsonOf(data: Dict<Json>): Result<ButtonFields> {
    var kw :- Utils.Kwargs(data, ButtonParams, []);
    var f :- ButtonOf(kw);
    match KindOf(f.style.json)
    case Some(k) => Ok(f.(style := KindMember(k)))
    case None => Err(ValueError("not a valid ComponentType"))
  }

  /** Without aliases the keyword arguments never fail and carry each
      parameter exactly as `data` has it. */
  lemma PlainKwargs(data: Dict<Json>, params: seq<string>)
    ensures Utils.Kwargs(data, params, []).Ok?
    ensures forall n :: n in params ==> Lookup(Utils.Kwargs(data, params, []).value, n) == Lookup(data, n)
  {
    Utils.KwargsFailsIff(data, params, []);
    forall n | n in params ensures Lookup(Utils.Kwargs(data, params, []).value, n) == Lookup(data, n) {
      Utils.KwargsValues(data, params, [], n);
    }
  }

  /** What `from_json` reads: each parameter from `data` or its default,
      the style decoded through `ComponentType`, no callback. */
  lemma FromJsonFields(data: Dict<Json>)
    ensures FromJsonOf(data).Ok? <==>
      HasKey(data, "style") && HasKey(data, "label")
      && KindOf(Lookup(data, "style").value).Some?
      && Truthy(FieldOr(data, "custom_id", JNull)) && !Truthy(FieldOr(data, "url", JNull))
    ensures FromJsonOf(data).Ok? ==> FromJsonOf(data).value == ButtonFields(
      Data(JNull), FieldOr(data, "custom_id", JNull), FieldOr(data, "disabled", JBool(false)),
      KindMember(KindOf(Lookup(data, "style").value).value), Lookup(data, "label").value,
      FieldOr(data, "emoji", JNull), FieldOr(data, "url", JNull))
  {
    PlainKwargs(data, ButtonParams);
    var kw := Utils.Kwargs(data, ButtonParams, []).value;
    assert Lookup(kw, "custom_id") == Lookup(data, "custom_id");
    assert Lookup(kw, "disabled") == Lookup(data, "disabled");
    assert Lookup(kw, "style") == Lookup(data, "style");
    assert Lookup(kw, "label") == Lookup(data, "label");
    assert Lookup(kw, "emoji") == Lookup(data, "emoji");
    assert Lookup(kw, "url") == Lookup(data, "url");
    assert FromJsonOf(data) == (
      var f :- ButtonOf(kw);
      match KindOf(f.style.json)
      case Some(k) => Ok(f.(style := KindMember(k)))
      case None => Err(ValueError("not a valid ComponentType")));
  }

  /** Only styles 1..3 survive `from_json`: a danger (4) or link (5) style
      fails to decode, although `ButtonStyles` defines them. */
  lemma FromJsonRejectsUpperStyles(data: Dict<Json>)
    requires Lookup(data, "style") == Some(JInt(4)) || Lookup(data, "style") == Some(JInt(5))
    ensures FromJsonOf(data).Err?
  {
    FromJsonFields(data);
  }

  /** Reading a button and writing it back keeps every parameter it was
      given, or the default it took (the style as its integer), and adds
      "type" 2. */
  lemma FromJsonToJson(data: Dict<Json>, style: int, labelText: Json)
    requires Lookup(data, "style") == Some(JInt(style)) && 1 <= style <= 3
    requires Lookup(data, "label") == Some(labelText)
    requires Truthy(FieldOr(data, "custom_id", JNull)) && !Truthy(FieldOr(data, "url", JNull))
    ensures FromJsonOf(data).Ok?
    ensures var j := ToJsonOf(AttrsOf(FromJsonOf(data).value));
      j.Ok? && Lookup(j.value, "style") == Some(Data(JInt(style)))
      && Lookup(j.value, "label") == Some(Data(labelText))
      && Lookup(j.value, "custom_id") == Some(Data(FieldOr(data, "custom_id", JNull)))
      && Lookup(j.value, "type") == Some(Data(JInt(2)))
    ensures var j := ToJsonOf(AttrsOf(FromJsonOf(data).value)).value;
      Lookup(j, "disabled") == Some(Data(FieldOr(data, "disabled", JBool(false))))
      && Lookup(j, "emoji") == Some(Data(FieldOr(data, "emoji", JNull)))
      && Lookup(j, "url") == Some(Data(FieldOr(data, "url", JNull)))
  {
    FromJsonFields(data);
    var f := FromJsonOf(data).value;
    ButtonToJson(f);
    var g := f.(style := Data(JInt(style)));
    var tail := [("type", Data(JInt(2)))];
    var j := PublicAttrsOf(g) + tail;
    ButtonKeys(g);
    ButtonNamesDistinct();
    LookupDistinct(j, ButtonJsonKeys, 0);
    LookupDistinct(j, ButtonJsonKeys, 1);
    LookupDistinct(j, ButtonJsonKeys, 2);
    LookupDistinct(j, ButtonJsonKeys, 3);
    LookupDistinct(j, ButtonJsonKeys, 4);
    LookupDistinct(j, ButtonJsonKeys, 5);
    LookupDistinct(j, ButtonJsonKeys, 6);
  }

  /** A button. `on_click` stores a callback in the private attribute. */
  class Button {
    var onClickFunc: Attr
    var customId: Json
    var disabled: Json
    var style: Attr
    var labelText: Json
    var emoji: Json
    var url: Json

    function Fields(): ButtonFields
      reads this
    {
      ButtonFields(onClickFunc, customId, disabled, style, labelText, emoji, url)
    }

    constructor Init(customId: Json, disabled: Json, style: Attr, labelText: Json, emoji: Json, url: Json)
      ensures Fields() == ButtonFields(Data(JNull), customId, disabled, style, labelText, emoji, url)
    {
      onClickFunc := Data(JNull);
      this.customId := customId;
      this.disabled := disabled;
      this.style := style;
      this.labelText := labelText;
      this.emoji := emoji;
      this.url := url;
    }

    /** `Button(custom_id=..., disabled=..., style=..., label=..., emoji=...,
        url=...)`: the object, or the error the check raises. */
    static method New(customId: Json, disabled: Json, style: Attr, labelText: Json, emoji: Json, url: Json)
      returns (r: Result<Button>)
      ensures r.Ok? <==> VerifyComponent(customId, url).Ok?
      ensures r.Err? ==> r.error == VerifyComponent(customId, url).error
      ensures r.Ok? ==> (fresh(r.value)
        && r.value.Fields() == ButtonFields(Data(JNull), customId, disabled, style, labelText, emoji, url))
    {
      var b := new Button.Init(customId, disabled, style, labelText, emoji, url);
      var check := VerifyComponent(b.customId, b.url);
      if check.Err? {
        return Err(check.error);
      }
      r := Ok(b);
    }

    /** `Button.from_json(data)` */
    static method FromJson(data: Dict<Json>) returns (r: Result<Button>)
      ensures r.Ok? <==> FromJsonOf(data).Ok?
      ensures r.Err? ==> r.error == FromJsonOf(data).error
      ensures r.Ok? ==> fresh(r.value) && r.value.Fields() == FromJsonOf(data).value
    {
      var kwr := Utils.ObjFromDict(data, ButtonParams, []);
      if kwr.Err? {
        return Err(kwr.error);
      }
      var kw := kwr.value;
      if !HasKey(kw, "style") || !HasKey(kw, "label") {
        return Err(MissingArgument);
      }
      var made := New(FieldOr(kw, "custom_id", JNull), FieldOr(kw, "disabled", JBool(false)),
                      Data(Lookup(kw, "style").value), Lookup(kw, "label").value,
                      FieldOr(kw, "emoji", JNull), FieldOr(kw, "url", JNull));
      if made.Err? {
        return Err(made.error);
      }
      var obj := made.value;
      var kind := KindOf(obj.style.json);
      if kind.None? {
        return Err(ValueError("not a valid ComponentType"));
      }
      obj.style := KindMember(kind.value);
      r := Ok(obj);
    }

    /** `to_json()`: builds the dict, then sets "type" and replaces "style". */
    method ToJson() returns (r: Result<Dict<Attr>>)
      ensures r == ToJsonOf(AttrsOf(Fields()))
    {
      var obj := Utils.ObjToDict(AttrsOf(Fields()), []);
      obj := Put(obj, "type", Data(JInt(KindValue(ButtonKind))));
      var style := Lookup(obj, "style");
      if style.None? {
        return Err(KeyError("style"));
      }
      var v := EnumValueOf(style.value);
      if v.Err? {
        return Err(v.error);
      }
      obj := Put(obj, "style", Data(JInt(v.value)));
      r := Ok(obj);
    }

    /** `on_click(fun)`: stores the callback and leaves every other attribute. */
    method OnClick(fun: string)
      modifies this
      ensures Fields() == old(Fields()).(onClick := Callback(fun))
    {
      onClickFunc := Callback(fun);
    }
  }

  // ---------------------------------------------------------------------
  // SelectMenuOption

  /** A select-menu option: its five attributes, in assignment order. */
  datatype SelectMenuOption = SelectMenuOption(labelText: Json, value: Json, description: Json, emoji: Json, isDefault: Json)

  const OptionParams := ["label", "value", "description", "emoji", "default"]

  /** `SelectMenuOption(**kw)`: `label` and `value` are required. */
  function OptionOf(kw: Dict<Json>): (r: Result<SelectMenuOption>)
    ensures r.Ok? <==> HasKey(kw, "label") && HasKey(kw, "value")
  {
    if !HasKey(kw, "label") || !HasKey(kw, "value") then Err(MissingArgument)
    else Ok(SelectMenuOption(Lookup(kw, "label").value, Lookup(kw, "value").value,
                             FieldOr(kw, "description", JNull), FieldOr(kw, "emoji", JNull),
                             FieldOr(kw, "default", JBool(false))))
  }

  function OptionAttrs(o: SelectMenuOption): Dict<Json> {
    [("label", o.labelText), ("value", o.value), ("description", o.description), ("emoji", o.emoji), ("default", o.isDefault)]
  }

  /** `SelectMenuOption.to_json()` */
  function OptionToJson(o: SelectMenuOption): Dict<Json> {
    Utils.Exported(OptionAttrs(o), [])
  }

  /** `SelectMenuOption.from_json(data)` */
  function OptionFromJson(data: Dict<Json>): Result<SelectMenuOption> {
    var kw :- Utils.Kwargs(data, OptionParams, []);
    OptionOf(kw)
  }

  /** `to_json` has exactly the five attributes, in order. */
  lemma OptionToJsonExact(o: SelectMenuOption)
    ensures OptionToJson(o) == OptionAttrs(o)
    ensures Keys(OptionToJson(o)) == OptionParams
  {
    var attrs := OptionAttrs(o);
    KeysDisplay(attrs, OptionParams);
    ButtonNamesDistinct();
    UniqueFromKeys(attrs, OptionParams);
    Utils.ExportedDistinct(attrs);
    ParamNamesPublic();
    Utils.PublicKeysAllPublic(attrs, OptionParams);
  }

  /** Writing an option out and reading it back gives the same option. */
  lemma OptionRoundTrip(o: SelectMenuOption)
    ensures OptionFromJson(OptionToJson(o)) == Ok(o)
  {
    OptionToJsonExact(o);
    var data := OptionAttrs(o);
    PlainKwargs(data, OptionParams);
    var kw := Utils.Kwargs(data, OptionParams, []).value;
    ButtonNamesDistinct();
    LookupDistinct(data, OptionParams, 0);
    LookupDistinct(data, OptionParams, 1);
    LookupDistinct(data, OptionParams, 2);
    LookupDistinct(data, OptionParams, 3);
    LookupDistinct(data, OptionParams, 4);
    assert Lookup(kw, "label") == Some(o.labelText);
    assert Lookup(kw, "value") == Some(o.value);
    assert Lookup(kw, "description") == Some(o.description);
    assert Lookup(kw, "emoji") == Some(o.emoji);
    assert Lookup(kw, "default") == Some(o.isDefault);
  }

  /** Reading an option needs `label` and `value`; missing optional keys
      take their defaults. */
  lemma OptionFromJsonDefaults(data: Dict<Json>)
    ensures OptionFromJson(data).Ok? <==> HasKey(data, "label") && HasKey(data, "value")
    ensures OptionFromJson(data).Ok? ==> OptionFromJson(data).value == SelectMenuOption(
      Lookup(data, "label").value, Lookup(data, "value").value, FieldOr(data, "description", JNull),
      FieldOr(data, "emoji", JNull), FieldOr(data, "default", JBool(false)))
  {
    PlainKwargs(data, OptionParams);
    var kw := Utils.Kwargs(data, OptionParams, []).value;
    assert Lookup(kw, "label") == Lookup(data, "label");
    assert Lookup(kw, "value") == Lookup(data, "value");
    assert Lookup(kw, "description") == Lookup(data, "description");
    assert Lookup(kw, "emoji") == Lookup(data, "emoji");
    assert Lookup(kw, "default") == Lookup(data, "default");
  }
}
