/** pycordia/errors/http.py: the HTTP error classes, the choice of class by
    status code, the flattening of Discord's nested error objects into
    dotted keys, and the rendering of the final error text. */
module HttpErrors {
  import opened Py
  import opened Json

  /** `HTTPError` and its eight subclasses. */
  datatype ErrorClass =
    | BadRequest | Unauthorized | Forbidden | NotFound | MethodNotAllowed
    | TooManyRequests | GatewayUnavailable | ServerError | HTTPError

  /** `status_map` in `determine_error`. */
  const StatusMap: map<int, ErrorClass> := map[
    400 := BadRequest, 401 := Unauthorized, 403 := Forbidden, 404 := NotFound,
    405 := MethodNotAllowed, 429 := TooManyRequests, 502 := GatewayUnavailable]

  /** The class `determine_error` instantiates for a status. */
  function ClassFor(status: int): ErrorClass {
    if status in StatusMap then StatusMap[status]
    else if StartsWith(IntToDecimal(status), "5") then ServerError
    else HTTPError
  }

  /** The table comes first, so 502 is a `GatewayUnavailable` and not a
      `ServerError`; every other 5xx status is a `ServerError`. */
  lemma ClassTable(status: int)
    ensures status == 400 ==> ClassFor(status) == BadRequest
    ensures status == 401 ==> ClassFor(status) == Unauthorized
    ensures status == 403 ==> ClassFor(status) == Forbidden
    ensures status == 404 ==> ClassFor(status) == NotFound
    ensures status == 405 ==> ClassFor(status) == MethodNotAllowed
    ensures status == 429 ==> ClassFor(status) == TooManyRequests
    ensures status == 502 ==> ClassFor(status) == GatewayUnavailable
    ensures 500 <= status <= 599 && status != 502 ==> ClassFor(status) == ServerError
  {
    if 500 <= status <= 599 {
      FiveHundredsStartWithFive(status);
    }
  }

  /** `ServerError` is chosen exactly for the unlisted statuses whose decimal
      text starts with "5" — which also takes in 5, 50 and 5000. */
  lemma ServerErrorIff(status: int)
    ensures ClassFor(status) == ServerError <==> status != 502 && StartsWith(IntToDecimal(status), "5")
    ensures ClassFor(5) == ServerError && ClassFor(5000) == ServerError
  {
    assert IntToDecimal(5) == "5";
    assert NatToDecimal(5000) == NatToDecimal(500) + "0";
    FiveHundredsStartWithFive(500);
  }

  /** The status codes below 500 that the table does not list are plain
      `HTTPError`s. */
  lemma UnlistedBelowFiveHundred(status: int)
    requires 100 <= status <= 499 && status !in StatusMap
    ensures ClassFor(status) == HTTPError
  {
    var d := NatToDecimal(status);
    assert d == NatToDecimal(status / 10) + [DigitChar(status % 10)];
    assert NatToDecimal(status / 10) == NatToDecimal(status / 100) + [DigitChar(status / 10 % 10)];
    assert NatToDecimal(status / 100) == [DigitChar(status / 100)];
    assert d[0] == DigitChar(status / 100);
  }

  // ---------------------------------------------------------------------
  // _flatten_errors

  /** `f"{input_key}{'.' * bool(input_key)}{key}"` */
  function ItemKey(inputKey: string, key: string): (k: string)
    ensures inputKey == "" ==> k == key
    ensures inputKey != "" ==> StartsWith(k, inputKey + ".")
    ensures inputKey != "" ==> EndsWith(k, key) && |k| == |inputKey| + 1 + |key|
  {
    var k := inputKey + (if inputKey != "" then "." else "") + key;
    assert inputKey != "" ==> k[..|inputKey| + 1] == inputKey + ".";
    k
  }

  /** The items one entry of an errors dict contributes: the value of its
      `_errors` key when it is a dict holding one, the flattening of it when
      it is a dict without one, and the value itself otherwise. */
  function Contribution(inputKey: string, key: string, value: Json): seq<(string, Json)>
    decreases value, 2
  {
    var itemKey := ItemKey(inputKey, key);
    match value
    case JObj(fs) =>
      (match Lookup(fs, "_errors")
       case Some(e) => [(itemKey, e)]
       case None => Flattened(fs, itemKey))
    case _ => [(itemKey, value)]
  }

  /** The list `items` after the loop has visited `fs` in order. */
  function FlatItems(fs: Dict<Json>, inputKey: string): seq<(string, Json)>
    decreases fs, 0
  {
    if fs == [] then []
    else
      assert fs[|fs| - 1].1 < fs[|fs| - 1];
      FlatItems(fs[..|fs| - 1], inputKey) + Contribution(inputKey, fs[|fs| - 1].0, fs[|fs| - 1].1)
  }

  /** `_flatten_errors(errors, input_key)` for a dict `errors`: `dict(items)`. */
  function Flattened(fs: Dict<Json>, inputKey: string): Dict<Json>
    decreases fs, 1
  {
    FromItems(FlatItems(fs, inputKey))
  }

  const NoItems := AttributeError("object has no attribute 'items'")

  lemma FlatItemsSnoc(fs: Dict<Json>, inputKey: string, key: string, value: Json)
    ensures FlatItems(fs + [(key, value)], inputKey) == FlatItems(fs, inputKey) + Contribution(inputKey, key, value)
  {
    assert (fs + [(key, value)])[..|fs|] == fs;
  }

  /** `HTTPError._flatten_errors(errors, input_key)`. `errors.items()` needs
      a dict; anything else raises AttributeError. */
  method FlattenErrors(errors: Json, inputKey: string) returns (r: Result<Dict<Json>>)
    ensures errors.JObj? ==> r == Ok(Flattened(errors.fields, inputKey))
    ensures !errors.JObj? ==> r == Err(NoItems)
  {
    if !errors.JObj? {
      return Err(NoItems);
    }
    var d := FlattenDict(errors.fields, inputKey);
    return Ok(d);
  }

  /** The loop of `_flatten_errors` over a dict, recursing into nested
      dicts that hold no `_errors`. */
  method FlattenDict(fs: Dict<Json>, inputKey: string) returns (d: Dict<Json>)
    ensures d == Flattened(fs, inputKey)
    decreases JObj(fs)
  {
    var items: seq<(string, Json)> := [];
    for i := 0 to |fs|
      invariant items == FlatItems(fs[..i], inputKey)
    {
      assert fs[..i + 1][..i] == fs[..i];
      var (key, value) := fs[i];
      var itemKey := ItemKey(inputKey, key);
      if value.JObj? {
        if HasKey(value.fields, "_errors") {
          items := items + [(itemKey, Lookup(value.fields, "_errors").value)];
        } else {
          assert fs[i] in fs;
          var sub := FlattenDict(value.fields, itemKey);
          items := items + sub;
        }
      } else {
        items := items + [(itemKey, value)];
      }
    }
    assert fs[..|fs|] == fs;
    d := FromItems(items);
  }

  /** Every flattened key extends the key of the top-level entry it came
      from: nested keys are that key, a dot, and the rest of the path. */
  lemma {:induction false} FlatKeysExtend(fs: Dict<Json>, inputKey: string, j: nat)
    requires j < |FlatItems(fs, inputKey)|
    ensures exists i :: 0 <= i < |fs| && StartsWith(FlatItems(fs, inputKey)[j].0, ItemKey(inputKey, fs[i].0))
    decreases fs, 0
  {
    var init := fs[..|fs| - 1];
    var (key, value) := fs[|fs| - 1];
    var left := FlatItems(init, inputKey);
    var items := FlatItems(fs, inputKey);
    if j < |left| {
      assert items[j] == left[j];
      FlatKeysExtend(init, inputKey, j);
      var i :| 0 <= i < |init| && StartsWith(left[j].0, ItemKey(inputKey, init[i].0));
      assert init[i] == fs[i];
    } else {
      assert fs[|fs| - 1].1 < fs[|fs| - 1];
      ContributionKeysExtend(inputKey, key, value, j - |left|);
      assert items[j] == Contribution(inputKey, key, value)[j - |left|];
      assert fs[|fs| - 1].0 == key;
    }
  }

  lemma {:induction false} ContributionKeysExtend(inputKey: string, key: string, value: Json, j: nat)
    requires j < |Contribution(inputKey, key, value)|
    ensures StartsWith(Contribution(inputKey, key, value)[j].0, ItemKey(inputKey, key))
    decreases value, 2
  {
    var itemKey := ItemKey(inputKey, key);
    if value.JObj? && !HasKey(value.fields, "_errors") {
      var fs := value.fields;
      var items := FlatItems(fs, itemKey);
      var flat := Flattened(fs, itemKey);
      var k := flat[j].0;
      FromItemsKeys(items, k);
      var m :| 0 <= m < |items| && items[m].0 == k;
      FlatKeysExtend(fs, itemKey, m);
      var i :| 0 <= i < |fs| && StartsWith(k, ItemKey(itemKey, fs[i].0));
      var nested := ItemKey(itemKey, fs[i].0);
      if itemKey != "" {
        assert nested[..|itemKey| + 1] == itemKey + ".";
        assert k[..|itemKey|] == nested[..|itemKey|] == itemKey;
      }
    }
  }

  /** Every key of `dict(items)` is the key of some item. */
  lemma FromItemsKeys(items: seq<(string, Json)>, k: string)
    requires exists j :: 0 <= j < |FromItems(items)| && FromItems(items)[j].0 == k
    ensures exists m :: 0 <= m < |items| && items[m].0 == k
  {
    FromItemsIntoKeys([], items, k);
  }

  lemma {:induction false} FromItemsIntoKeys(acc: Dict<Json>, items: seq<(string, Json)>, k: string)
    requires UniqueKeys(acc)
    requires exists j :: 0 <= j < |FromItemsInto(acc, items)| && FromItemsInto(acc, items)[j].0 == k
    ensures (exists j :: 0 <= j < |acc| && acc[j].0 == k) || (exists m :: 0 <= m < |items| && items[m].0 == k)
    decreases |items|
  {
    if items != [] {
      PutKeepsUniqueKeys(acc, items[0].0, items[0].1);
      var next := Put(acc, items[0].0, items[0].1);
      FromItemsIntoKeys(next, items[1..], k);
      if exists j :: 0 <= j < |next| && next[j].0 == k {
        var j :| 0 <= j < |next| && next[j].0 == k;
        PutKeys(acc, items[0].0, items[0].1);
        KeysAt(next, j);
        if j < |acc| {
          KeysAt(acc, j);
        }
      } else {
        var m :| 0 <= m < |items[1..]| && items[1..][m].0 == k;
        assert items[m + 1].0 == k;
      }
    }
  }

  /** Nesting is spelled with dots, and a dict holding `_errors` is a leaf:
      `{"a": {"b": {"_errors": e}, "c": x}}` flattens to
      `{"a.b": e, "a.c": x}`. */
  lemma NestedExample(e: Json, x: Json)
    requires !x.JObj?
    ensures Flattened([("a", JObj([("b", JObj([("_errors", e)])), ("c", x)]))], "")
      == [("a.b", e), ("a.c", x)]
  {
    var b := ("b", JObj([("_errors", e)]));
    var inner := [b, ("c", x)];
    FlatItemsSnoc([], "a", b.0, b.1);
    assert [] + [b] == [b];
    assert ItemKey("a", "b") == "a.b";
    assert Lookup([("_errors", e)], "_errors") == Some(e);
    assert Contribution("a", "b", b.1) == [("a.b", e)];
    assert ItemKey("a", "c") == "a.c";
    FlatItemsSnoc([b], "a", "c", x);
    assert [b] + [("c", x)] == inner;
    assert FlatItems(inner, "a") == [("a.b", e), ("a.c", x)];
    FromItemsDistinct([("a.b", e), ("a.c", x)]);
    assert Lookup(inner, "_errors") == None;
    assert ItemKey("", "a") == "a";
    assert Contribution("", "a", JObj(inner)) == [("a.b", e), ("a.c", x)];
    FlatItemsSnoc([], "", "a", JObj(inner));
    assert [] + [("a", JObj(inner))] == [("a", JObj(inner))];
    assert FlatItems([("a", JObj(inner))], "") == [("a.b", e), ("a.c", x)];
  }

  // ---------------------------------------------------------------------
  // error_message

  /** The header line and the blank line after it. */
  function Header(message: Json, code: Json): string {
    Str(message) + " (code " + Str(code) + ")\n\n"
  }

  /** The tab-indented line for one error entry; `error['message']` is read
      before `error['code']`. */
  function ErrorLine(error: Json): Result<string> {
    var m :- Subscript(error, "message");
    var c :- Subscript(error, "code");
    Ok("\t" + Str(m) + " (code " + Str(c) + ")\n")
  }

  /** The lines for the errors visited so far. */
  function ErrorLines(errors: seq<Json>): Result<string> {
    if errors == [] then Ok("")
    else
      var init :- ErrorLines(errors[..|errors| - 1]);
      var line :- ErrorLine(errors[|errors| - 1]);
      Ok(init + line)
  }

  /** The block for one flattened key: its `In '<key>':` line and one line per
      error in its value, which has to be iterable. */
  function Block(key: string, value: Json): Result<string> {
    var errs :- Iterate(value);
    var lines :- ErrorLines(errs);
    Ok("In '" + key + "':\n" + lines)
  }

  function Blocks(flat: Dict<Json>): Result<string> {
    if flat == [] then Ok("")
    else
      var init :- Blocks(flat[..|flat| - 1]);
      var b :- Block(flat[|flat| - 1].0, flat[|flat| - 1].1);
      Ok(init + b)
  }

  /** The rendering loop of `HTTPError.__init__`: the header, then the blocks;
      the caller strips the result. */
  method RenderErrorMessage(message: Json, code: Json, flat: Dict<Json>) returns (r: Result<string>)
    ensures Blocks(flat).Ok? ==> r == Ok(Header(message, code) + Blocks(flat).value)
    ensures Blocks(flat).Err? ==> r == Err(Blocks(flat).error)
  {
    ghost var header := Header(message, code);
    var errorMessage := Header(message, code);
    for i := 0 to |flat|
      invariant Blocks(flat[..i]).Ok?
      invariant errorMessage == header + Blocks(flat[..i]).value
    {
      var block := RenderBlock(flat[i].0, flat[i].1);
      BlocksExtend(flat, i, header, errorMessage);
      if block.Err? {
        return Err(block.error);
      }
      errorMessage := errorMessage + block.value;
    }
    assert flat[..|flat|] == flat;
    r := Ok(errorMessage);
  }

  /** One pass of the outer loop: the key line, then the inner loop over the
      errors of that key. */
  method RenderBlock(key: string, value: Json) returns (r: Result<string>)
    ensures r == Block(key, value)
  {
    var it := Iterate(value);
    if it.Err? {
      return Err(it.error);
    }
    var errs := it.value;
    var lines := "";
    for j := 0 to |errs|
      invariant ErrorLines(errs[..j]) == Ok(lines)
    {
      ErrorLinesStep(errs, j);
      var line := ErrorLine(errs[j]);
      if line.Err? {
        r := Err(line.error);
        ErrorLinesErrSticks(errs, j + 1);
        return;
      }
      lines := lines + line.value;
    }
    assert errs[..|errs|] == errs;
    r := Ok("In '" + key + "':\n" + lines);
  }

  lemma ErrorLinesStep(errs: seq<Json>, j: nat)
    requires j < |errs| && ErrorLines(errs[..j]).Ok?
    ensures ErrorLine(errs[j]).Ok? ==>
      ErrorLines(errs[..j + 1]) == Ok(ErrorLines(errs[..j]).value + ErrorLine(errs[j]).value)
    ensures ErrorLine(errs[j]).Err? ==> ErrorLines(errs[..j + 1]) == Err(ErrorLine(errs[j]).error)
  {
    assert errs[..j + 1][..j] == errs[..j];
  }

  lemma BlocksStep(flat: Dict<Json>, i: nat)
    requires i < |flat| && Blocks(flat[..i]).Ok?
    ensures Block(flat[i].0, flat[i].1).Ok? ==>
      Blocks(flat[..i + 1]) == Ok(Blocks(flat[..i]).value + Block(flat[i].0, flat[i].1).value)
    ensures Block(flat[i].0, flat[i].1).Err? ==> Blocks(flat[..i + 1]) == Err(Block(flat[i].0, flat[i].1).error)
  {
    assert flat[..i + 1][..i] == flat[..i];
  }

  /** One more block rendered onto the text so far, or the error that ends
      the rendering. */
  lemma BlocksExtend(flat: Dict<Json>, i: nat, header: string, acc: string)
    requires i < |flat| && Blocks(flat[..i]).Ok? && acc == header + Blocks(flat[..i]).value
    ensures Block(flat[i].0, flat[i].1).Ok? ==>
      Blocks(flat[..i + 1]).Ok? && acc + Block(flat[i].0, flat[i].1).value == header + Blocks(flat[..i + 1]).value
    ensures Block(flat[i].0, flat[i].1).Err? ==> Blocks(flat) == Err(Block(flat[i].0, flat[i].1).error)
  {
    BlocksStep(flat, i);
    if Block(flat[i].0, flat[i].1).Err? {
      BlocksErrSticks(flat, i + 1);
    } else {
      ConcatAssoc(header, Blocks(flat[..i]).value, Block(flat[i].0, flat[i].1).value);
    }
  }

  lemma {:induction false} ErrorLinesErrSticks(errs: seq<Json>, k: nat)
    requires k <= |errs| && ErrorLines(errs[..k]).Err?
    ensures ErrorLines(errs) == ErrorLines(errs[..k])
    decreases |errs| - k
  {
    if k < |errs| {
      assert errs[..k + 1][..k] == errs[..k];
      ErrorLinesErrSticks(errs, k + 1);
    } else {
      assert errs[..k] == errs;
    }
  }

  lemma {:induction false} BlocksErrSticks(flat: Dict<Json>, k: nat)
    requires k <= |flat| && Blocks(flat[..k]).Err?
    ensures Blocks(flat) == Blocks(flat[..k])
    decreases |flat| - k
  {
    if k < |flat| {
      assert flat[..k + 1][..k] == flat[..k];
      BlocksErrSticks(flat, k + 1);
    } else {
      assert flat[..k] == flat;
    }
  }

  // ---------------------------------------------------------------------
  // HTTPError

  /** An `HTTPError` (of class `cls`) with its attributes and its text. */
  datatype HttpError = HttpError(cls: ErrorClass, data: Json, code: Json, errors: Json, message: Json, text: string)

  /** `cls(data)`: `data["code"]`, `data.get("errors", {})` and
      `data["message"]` in that order, the errors flattened and rendered,
      and the text stripped of surrounding whitespace. */
  method NewHttpError(cls: ErrorClass, data: Json) returns (r: Result<HttpError>)
    ensures r == ErrorOf(cls, data)
  {
    var code := Subscript(data, "code");
    if code.Err? { return Err(code.error); }
    // `data` is a dict here, or `data["code"]` would have raised.
    var errors := Get(data, "errors", JObj([])).value;
    var message := Subscript(data, "message");
    if message.Err? { return Err(message.error); }
    var flat := FlattenErrors(errors, "");
    if flat.Err? { return Err(flat.error); }
    var text := RenderErrorMessage(message.value, code.value, flat.value);
    if text.Err? { return Err(text.error); }
    r := Ok(HttpError(cls, data, code.value, errors, message.value, Strip(text.value)));
  }

  /** What constructing `cls(data)` evaluates to. */
  function ErrorOf(cls: ErrorClass, data: Json): Result<HttpError> {
    var code :- Subscript(data, "code");
    var errors :- Get(data, "errors", JObj([]));
    var message :- Subscript(data, "message");
    var flat :- if errors.JObj? then Ok(Flattened(errors.fields, ""))
                else Err(NoItems);
    var body :- Blocks(flat);
    Ok(HttpError(cls, data, code, errors, message, Strip(Header(message, code) + body)))
  }

  /** `determine_error(status, rs)`: the error object for a failed response,
      or the exception its construction raises. */
  method DetermineError(status: int, rs: Json) returns (r: Result<HttpError>)
    ensures r == ErrorOf(ClassFor(status), rs)
  {
    r := NewHttpError(ClassFor(status), rs);
  }

  /** `code` and `message` are required; `errors` is optional. */
  lemma RequiredKeys(cls: ErrorClass, fs: Dict<Json>)
    ensures !HasKey(fs, "code") ==> ErrorOf(cls, JObj(fs)) == Err(KeyError("code"))
    ensures HasKey(fs, "code") && !HasKey(fs, "message") ==> ErrorOf(cls, JObj(fs)) == Err(KeyError("message"))
  {
  }

  /** Without `errors` the text is the header alone, stripped. */
  lemma NoErrorsKey(cls: ErrorClass, fs: Dict<Json>)
    requires HasKey(fs, "code") && HasKey(fs, "message") && !HasKey(fs, "errors")
    ensures ErrorOf(cls, JObj(fs)) == Ok(HttpError(cls, JObj(fs), Lookup(fs, "code").value, JObj([]),
      Lookup(fs, "message").value, Strip(Header(Lookup(fs, "message").value, Lookup(fs, "code").value))))
  {
    assert Get(JObj(fs), "errors", JObj([])) == Ok(JObj([]));
    assert FlatItems([], "") == [];
    assert Blocks(Flattened([], "")) == Ok("");
    assert Header(Lookup(fs, "message").value, Lookup(fs, "code").value) + "" ==
      Header(Lookup(fs, "message").value, Lookup(fs, "code").value);
  }

  /** The payload `{"code": c, "message": m, "errors": e}`. */
  function Payload(code: Json, message: Json, errors: Json): Json {
    JObj([("code", code), ("message", message), ("errors", errors)])
  }

  lemma PayloadError(cls: ErrorClass, code: Json, message: Json, errors: Json)
    ensures ErrorOf(cls, Payload(code, message, errors)) ==
      if !errors.JObj? then Err(NoItems)
      else match Blocks(Flattened(errors.fields, ""))
        case Ok(body) => Ok(HttpError(cls, Payload(code, message, errors), code, errors, message,
                                      Strip(Header(message, code) + body)))
        case Err(x) => Err(x)
  {
    var fs := Payload(code, message, errors).fields;
    LookupFirst(fs, 0, "code");
    LookupFirst(fs, 1, "message");
    LookupFirst(fs, 2, "errors");
  }

  /** A single error renders as one tab-indented line. */
  lemma SingleErrorLine(em: string, ec: int)
    ensures ErrorLines([JObj([("code", JInt(ec)), ("message", JStr(em))])])
      == Ok("\t" + em + " (code " + IntToDecimal(ec) + ")\n")
  {
    var err := JObj([("code", JInt(ec)), ("message", JStr(em))]);
    var line := "\t" + em + " (code " + IntToDecimal(ec) + ")\n";
    LookupFirst(err.fields, 1, "message");
    LookupFirst(err.fields, 0, "code");
    assert Subscript(err, "message") == Ok(JStr(em));
    assert Subscript(err, "code") == Ok(JInt(ec));
    assert ErrorLine(err) == Ok(line);
    assert [err][..0] == [];
    assert ErrorLines([err]) == Ok("" + line);
    assert "" + line == line;
  }

  /** A single flattened key renders as its block alone. */
  lemma SingleBlock(key: string, value: Json)
    ensures Blocks([(key, value)]) == Block(key, value)
  {
    assert [(key, value)][..0] == [];
    var b := Block(key, value);
    if b.Ok? {
      assert Blocks([(key, value)]) == Ok("" + b.value);
      assert "" + b.value == b.value;
    }
  }

  /** A field whose dict holds `_errors` flattens to that list under the
      field's own name. */
  lemma SingleFieldFlattened(field: string, v: Json)
    ensures Flattened([(field, JObj([("_errors", v)]))], "") == [(field, v)]
  {
    FlatItemsSnoc([], "", field, JObj([("_errors", v)]));
    assert [] + [(field, JObj([("_errors", v)]))] == [(field, JObj([("_errors", v)]))];
    assert FlatItems([(field, JObj([("_errors", v)]))], "") == [(field, v)];
    FromItemsDistinct([(field, v)]);
  }

  /** One field with one error: the header, a blank line, the key line and
      the tab-indented error, surrounding whitespace stripped. */
  lemma OneFieldExample(message: string, code: int, field: string, em: string, ec: int)
    ensures var err := JObj([("code", JInt(ec)), ("message", JStr(em))]);
      var data := Payload(JInt(code), JStr(message), JObj([(field, JObj([("_errors", JArr([err]))]))]));
      ErrorOf(BadRequest, data).Ok? &&
      ErrorOf(BadRequest, data).value.text ==
        Strip((message + " (code " + IntToDecimal(code) + ")\n\n")
          + ("In '" + field + "':\n" + ("\t" + em + " (code " + IntToDecimal(ec) + ")\n")))
  {
    var err := JObj([("code", JInt(ec)), ("message", JStr(em))]);
    var errors := JObj([(field, JObj([("_errors", JArr([err]))]))]);
    PayloadError(BadRequest, JInt(code), JStr(message), errors);
    OneFieldBlocks(field, em, ec);
    assert Header(JStr(message), JInt(code)) == message + " (code " + IntToDecimal(code) + ")\n\n";
  }

  /** The error block of a single field with a single error. */
  lemma OneFieldBlocks(field: string, em: string, ec: int)
    ensures var err := JObj([("code", JInt(ec)), ("message", JStr(em))]);
      Blocks(Flattened([(field, JObj([("_errors", JArr([err]))]))], ""))
        == Ok("In '" + field + "':\n" + ("\t" + em + " (code " + IntToDecimal(ec) + ")\n"))
  {
    var err := JObj([("code", JInt(ec)), ("message", JStr(em))]);
    var line := "\t" + em + " (code " + IntToDecimal(ec) + ")\n";
    SingleFieldFlattened(field, JArr([err]));
    SingleErrorLine(em, ec);
    SingleBlock(field, JArr([err]));
    var body := "In '" + field + "':\n" + line;
    assert Block(field, JArr([err])) == Ok(body);
  }

  /** A value that cannot be iterated makes the construction raise
      TypeError, even though the status was classified. */
  lemma NonIterableErrorsRaise(cls: ErrorClass, code: Json, message: Json, field: string, n: int)
    ensures var r := ErrorOf(cls, Payload(code, message, JObj([(field, JInt(n))])));
      r.Err? && r.error.TypeError?
  {
    var flat := [(field, JInt(n))];
    PayloadError(cls, code, message, JObj(flat));
    FlatItemsSnoc([], "", field, JInt(n));
    assert [] + flat == flat;
    assert FlatItems(flat, "") == flat;
    FromItemsDistinct(flat);
    assert Flattened(flat, "") == flat;
    SingleBlock(field, JInt(n));
    assert Block(field, JInt(n)) == Err(TypeError("object is not iterable"));
    assert Blocks(Flattened(flat, "")).Err?;
  }
}
