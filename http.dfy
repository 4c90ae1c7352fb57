/** pycordia/http.py: what `HTTPClient.request` sends and how it treats the
    response, and the byte layout of `create_multipart`. The aiohttp session
    is reduced to whether one exists; `json.dumps(..., indent=4)` and
    `pycordia.api_url` are inputs. */
module Http {
  import opened Py
  import opened Json
  import GeneralErrors
  import HttpErrors

  newtype byte = x: int | 0 <= x < 256

  // ---------------------------------------------------------------------
  // str.encode("utf-8")

  /** The UTF-8 encoding of one code point (Dafny characters are Unicode
      scalar values, so no surrogate can fail to encode). */
  function EncodeChar(c: char): (bs: seq<byte>)
    ensures 1 <= |bs| <= 4
    ensures c as int < 0x80 <==> |bs| == 1
    ensures c as int < 0x80 ==> bs[0] as int == c as int
  {
    var n := c as int;
    if n < 0x80 then [n as byte]
    else if n < 0x800 then [(0xC0 + n / 64) as byte, (0x80 + n % 64) as byte]
    else if n < 0x1_0000 then
      [(0xE0 + n / 4096) as byte, (0x80 + n / 64 % 64) as byte, (0x80 + n % 64) as byte]
    else
      [(0xF0 + n / 262144) as byte, (0x80 + n / 4096 % 64) as byte,
       (0x80 + n / 64 % 64) as byte, (0x80 + n % 64) as byte]
  }

  /** `s.encode("utf-8")` */
  function Utf8(s: string): seq<byte> {
    if s == [] then [] else EncodeChar(s[0]) + Utf8(s[1..])
  }

  /** Encoding distributes over concatenation. */
  lemma {:induction false} Utf8Append(a: string, b: string)
    ensures Utf8(a + b) == Utf8(a) + Utf8(b)
  {
    if a != [] {
      assert (a + b)[0] == a[0];
      assert (a + b)[1..] == a[1..] + b;
      Utf8Append(a[1..], b);
      calc {
        Utf8(a + b);
        EncodeChar(a[0]) + Utf8(a[1..] + b);
        EncodeChar(a[0]) + (Utf8(a[1..]) + Utf8(b));
        (EncodeChar(a[0]) + Utf8(a[1..])) + Utf8(b);
      }
    } else {
      assert a + b == b;
    }
  }

  /** ASCII text encodes one byte per character. */
  lemma {:induction false} Utf8Ascii(s: string)
    requires forall i :: 0 <= i < |s| ==> s[i] as int < 0x80
    ensures |Utf8(s)| == |s|
    ensures forall i :: 0 <= i < |s| ==> Utf8(s)[i] as int == s[i] as int
  {
    if s != [] {
      Utf8Ascii(s[1..]);
      assert Utf8(s) == EncodeChar(s[0]) + Utf8(s[1..]);
      forall i | 1 <= i < |s| ensures Utf8(s)[i] as int == s[i] as int {
        assert Utf8(s)[i] == Utf8(s[1..])[i - 1];
      }
    }
  }

  // ---------------------------------------------------------------------
  // create_multipart

  /** A file to upload: its name and the bytes `fp.read()` returns. */
  datatype File = File(filename: string, content: seq<byte>)

  /** The opening `payload_json` part, given the JSON text of the payload. */
  function PayloadPart(boundary: string, payloadText: string): string {
    BoundaryLine(boundary)
      + "Content-Disposition: form-data; name=\"payload_json\"\n"
      + "Content-Type: application/json\n\n"
      + payloadText + "\n"
  }

  /** The line that opens every part. */
  function BoundaryLine(boundary: string): string {
    "--" + boundary + "\n"
  }

  /** The header text of the part for file number `i`. */
  function FileHeader(boundary: string, i: nat, filename: string): string {
    BoundaryLine(boundary)
      + "Content-Disposition: form-data; name=\"files[" + NatToDecimal(i) + "]\"; filename=\""
      + filename + "\"\n"
      + "Content-Type: application/octet-stream\n\n"
  }

  /** The part for file number `i`: header, raw content, newline. */
  function FilePart(boundary: string, i: nat, f: File): seq<byte> {
    Utf8(FileHeader(boundary, i, f.filename)) + f.content + [10]
  }

  /** The parts of `files`, numbered from 0 in list order. */
  function FileParts(boundary: string, files: seq<File>): seq<byte> {
    if files == [] then []
    else FileParts(boundary, files[..|files| - 1]) + FilePart(boundary, |files| - 1, files[|files| - 1])
  }

  function Closing(boundary: string): seq<byte> {
    Utf8("--" + boundary + "--")
  }

  /** The body `create_multipart` returns. */
  function Multipart(boundary: string, payloadText: string, files: seq<File>): seq<byte> {
    Utf8(PayloadPart(boundary, payloadText)) + FileParts(boundary, files) + Closing(boundary)
  }

  /** The bytes of the first `n` file parts come first, unchanged by later
      files. */
  lemma {:induction false} FilePartsPrefix(boundary: string, files: seq<File>, n: nat)
    requires n <= |files|
    ensures |FileParts(boundary, files[..n])| <= |FileParts(boundary, files)|
    ensures FileParts(boundary, files[..n]) == FileParts(boundary, files)[..|FileParts(boundary, files[..n])|]
    decreases |files| - n
  {
    if n < |files| {
      FilePartsPrefix(boundary, files, n + 1);
      assert files[..n + 1][..n] == files[..n];
      var p, q := FileParts(boundary, files[..n]), FileParts(boundary, files[..n + 1]);
      assert q == p + FilePart(boundary, n, files[n]);
      assert q[..|p|] == p;
      assert FileParts(boundary, files)[..|q|][..|p|] == FileParts(boundary, files)[..|p|];
    } else {
      assert files[..n] == files;
    }
  }

  /** One more file adds its part at the end. */
  lemma FilePartsSnoc(boundary: string, files: seq<File>, i: nat)
    requires i < |files|
    ensures FileParts(boundary, files[..i + 1]) == FileParts(boundary, files[..i]) + FilePart(boundary, i, files[i])
  {
    assert files[..i + 1][..i] == files[..i];
  }

  /** A block found at offset `|p|` of the middle of three concatenated
      sequences is found at offset `|head| + |p|` of the whole. */
  lemma SliceOfMiddle<T>(head: seq<T>, mid: seq<T>, tail: seq<T>, p: seq<T>, x: seq<T>)
    requires |p| + |x| <= |mid| && mid[..|p| + |x|] == p + x
    ensures |head| + |p| + |x| <= |head + mid + tail|
    ensures (head + mid + tail)[|head| + |p|..|head| + |p| + |x|] == x
  {
    assert mid[|p|..|p| + |x|] == (p + x)[|p|..];
  }

  /** File number `i`'s part sits, contiguous and intact, right after the
      payload part and the parts of the files before it. */
  lemma FilePartAt(boundary: string, payloadText: string, files: seq<File>, i: nat)
    requires i < |files|
    ensures var m := Multipart(boundary, payloadText, files);
      var off := |Utf8(PayloadPart(boundary, payloadText))| + |FileParts(boundary, files[..i])|;
      var part := FilePart(boundary, i, files[i]);
      off + |part| <= |m| && m[off..off + |part|] == part
  {
    var all := FileParts(boundary, files);
    var before := FileParts(boundary, files[..i]);
    var part := FilePart(boundary, i, files[i]);
    FilePartsPrefix(boundary, files, i + 1);
    FilePartsSnoc(boundary, files, i);
    var head, close := Utf8(PayloadPart(boundary, payloadText)), Closing(boundary);
    SliceOfMiddle(head, all, close, before, part);
    assert Multipart(boundary, payloadText, files) == head + all + close;
  }

  /** The payload part opens with the boundary line. */
  lemma PayloadPartOpens(boundary: string, payloadText: string)
    ensures var head := Utf8(PayloadPart(boundary, payloadText));
      var open := Utf8(BoundaryLine(boundary));
      |open| <= |head| && head[..|open|] == open
  {
    var rest := "Content-Disposition: form-data; name=\"payload_json\"\n"
      + "Content-Type: application/json\n\n" + payloadText + "\n";
    assert PayloadPart(boundary, payloadText) == BoundaryLine(boundary) + rest;
    Utf8Append(BoundaryLine(boundary), rest);
  }

  /** The closing boundary ends in two dashes, not a newline. */
  lemma ClosingEnds(boundary: string)
    ensures Closing(boundary) == Utf8("--" + boundary) + [45, 45]
  {
    Utf8Append("--" + boundary, "--");
    assert Utf8("-") == [45];
    assert Utf8("--") == [45, 45];
  }

  /** The body opens with the boundary line and ends with the closing
      boundary, with no newline after it. */
  lemma MultipartFrame(boundary: string, payloadText: string, files: seq<File>)
    ensures var m := Multipart(boundary, payloadText, files);
      var open := Utf8(BoundaryLine(boundary));
      |open| <= |m| && m[..|open|] == open
    ensures var m := Multipart(boundary, payloadText, files);
      var close := Closing(boundary);
      |close| <= |m| && m[|m| - |close|..] == close
    ensures var m := Multipart(boundary, payloadText, files);
      m[|m| - 1] == 45
  {
    var head := Utf8(PayloadPart(boundary, payloadText));
    var open := Utf8(BoundaryLine(boundary));
    PayloadPartOpens(boundary, payloadText);
    ClosingEnds(boundary);
    var m := Multipart(boundary, payloadText, files);
    assert m == head + (FileParts(boundary, files) + Closing(boundary));
    assert m[..|open|] == head[..|open|];
  }

  /** Without files the body is the payload part followed directly by the
      closing boundary. */
  lemma NoFilesMultipart(boundary: string, payloadText: string)
    ensures Multipart(boundary, payloadText, []) ==
      Utf8(PayloadPart(boundary, payloadText) + "--" + boundary + "--")
  {
    Utf8Append(PayloadPart(boundary, payloadText), "--" + boundary + "--");
    assert PayloadPart(boundary, payloadText) + "--" + boundary + "--"
      == PayloadPart(boundary, payloadText) + ("--" + boundary + "--");
  }

  // ---------------------------------------------------------------------
  // The query string

  /** The `param_list` built from the entries of `params` in order: a None
      value is skipped, any other one (False and 0 included) gives
      `f"{name}={value}"`. */
  function ParamItems(params: Dict<Json>): seq<string> {
    if params == [] then []
    else
      var (name, value) := params[|params| - 1];
      ParamItems(params[..|params| - 1]) + (if value == JNull then [] else [name + "=" + Str(value)])
  }

  /** The entries whose value is not None, in order: an independent
      statement of which parameters survive. */
  function NonNull(params: Dict<Json>): (r: Dict<Json>)
    ensures forall i :: 0 <= i < |r| ==> r[i].1 != JNull
  {
    if params == [] then []
    else (if params[0].1 == JNull then [] else [params[0]]) + NonNull(params[1..])
  }

  lemma {:induction false} ParamItemsAppend(p: Dict<Json>, q: Dict<Json>)
    ensures ParamItems(p + q) == ParamItems(p) + ParamItems(q)
    decreases |q|
  {
    if q == [] {
      assert p + q == p;
    } else {
      var q0 := q[..|q| - 1];
      assert (p + q)[..|p + q| - 1] == p + q0;
      assert (p + q)[|p + q| - 1] == q[|q| - 1];
      ParamItemsAppend(p, q0);
    }
  }

  /** Each entry rendered `name=value`. */
  function RenderEach(ps: Dict<Json>): (r: seq<string>)
    ensures |r| == |ps|
    ensures forall j :: 0 <= j < |ps| ==> r[j] == ps[j].0 + "=" + Str(ps[j].1)
  {
    if ps == [] then [] else [ps[0].0 + "=" + Str(ps[0].1)] + RenderEach(ps[1..])
  }

  lemma {:induction false} ParamItemsRenderKept(params: Dict<Json>)
    ensures ParamItems(params) == RenderEach(NonNull(params))
  {
    if params != [] {
      var rest := params[1..];
      ParamItemsRenderKept(rest);
      assert params == [params[0]] + rest;
      ParamItemsAppend([params[0]], rest);
      assert [params[0]][..0] == [];
      if params[0].1 == JNull {
        assert ParamItems([params[0]]) == [];
        assert NonNull(params) == NonNull(rest);
      } else {
        var kept := [params[0]] + NonNull(rest);
        assert NonNull(params) == kept;
        assert kept[1..] == NonNull(rest);
      }
    }
  }

  /** The parameter list is the surviving entries, each rendered
      `name=value`, in their original order. */
  lemma ParamItemsFilterMap(params: Dict<Json>)
    ensures var kept := NonNull(params);
      ParamItems(params) == seq(|kept|, j requires 0 <= j < |kept| => kept[j].0 + "=" + Str(kept[j].1))
  {
    ParamItemsRenderKept(params);
  }

  /** No item at all exactly when every value is None. */
  lemma {:induction false} ParamItemsEmptyIff(params: Dict<Json>)
    ensures ParamItems(params) == [] <==> forall i :: 0 <= i < |params| ==> params[i].1 == JNull
  {
    if params != [] {
      var init := params[..|params| - 1];
      ParamItemsEmptyIff(init);
      forall i | 0 <= i < |init| ensures init[i] == params[i] { }
    }
  }

  /** Falsy values other than None are kept. */
  lemma FalsyValuesKept()
    ensures ParamItems([("a", JBool(false)), ("b", JInt(0)), ("c", JNull), ("d", JStr(""))])
      == ["a=False", "b=0", "d="]
  {
    var p := [("a", JBool(false)), ("b", JInt(0)), ("c", JNull), ("d", JStr(""))];
    assert p[..1][..0] == [];
    assert p[..2][..1] == p[..1];
    assert p[..3][..2] == p[..2];
    assert p[..4] == p;
    assert "a" + "=" + Str(JBool(false)) == "a=False";
    assert "b" + "=" + Str(JInt(0)) == "b=0";
    assert "d" + "=" + Str(JStr("")) == "d=";
    assert ParamItems(p[..1]) == ["a=False"];
    assert ParamItems(p[..2]) == ["a=False", "b=0"];
    assert ParamItems(p[..3]) == ["a=False", "b=0"];
  }

  /** The parameter loop of `request`. */
  method BuildParamList(params: Dict<Json>) returns (paramList: seq<string>)
    ensures paramList == ParamItems(params)
  {
    paramList := [];
    for i := 0 to |params|
      invariant paramList == ParamItems(params[..i])
    {
      assert params[..i + 1][..i] == params[..i];
      var (name, value) := params[i];
      if value == JNull {
        continue;
      }
      paramList := paramList + [name + "=" + Str(value)];
    }
    assert params[..|params|] == params;
  }

  /** The endpoint with `?` and the joined items, only when there are items. */
  function WithQuery(endpoint: string, items: seq<string>): (r: string)
    ensures StartsWith(r, endpoint)
    ensures items == [] <==> r == endpoint
    ensures items != [] ==> r[|endpoint|] == '?' && r[|endpoint| + 1..] == Join("&", items)
  {
    if items == [] then endpoint
    else
      var r := endpoint + "?" + Join("&", items);
      assert r[..|endpoint|] == endpoint;
      r
  }

  /** The query is appended exactly when some parameter is not None. */
  lemma QueryAppendedIff(endpoint: string, params: Dict<Json>)
    ensures WithQuery(endpoint, ParamItems(params)) != endpoint <==>
      exists i :: 0 <= i < |params| && params[i].1 != JNull
  {
    ParamItemsEmptyIff(params);
  }

  // ---------------------------------------------------------------------
  // request

  /** The keyword arguments passed to `session.request` besides the
      headers: none, `json=payload` or `data=multipart`. */
  datatype Body = NoBody | JsonBody(json: Json) | MultipartBody(data: seq<byte>)

  /** The request `request` hands to the session. */
  datatype Request = Request(verb: string, url: string, contentType: string, body: Body)

  const NoSession := GeneralErrors.ClientSetup(JStr("No HTTP client session found."))

  /** `params` after `if not params: params = {}`, seen through `.items()`:
      a truthy value that is not a dict has no `items`. */
  function ParamsOf(params: Json): (r: Result<Dict<Json>>)
    ensures !Truthy(params) ==> r == Ok([])
    ensures Truthy(params) && params.JObj? ==> r == Ok(params.fields)
    ensures Truthy(params) && !params.JObj? ==> r.Err? && r.error.AttributeError?
  {
    if !Truthy(params) then Ok([])
    else if params.JObj? then Ok(params.fields)
    else Err(AttributeError("object has no attribute 'items'"))
  }

  /** The payload after `if not payload_json: payload_json = {}`. */
  function PayloadOf(payloadJson: Json): Json {
    if Truthy(payloadJson) then payloadJson else JObj([])
  }

  /** The request for a given URL: multipart naming the boundary when there
      are files, JSON otherwise. */
  function Shape(verb: string, url: string, boundary: string, payload: Json, files: seq<File>,
                 dumps: Json -> string): Request
  {
    if files != [] then
      Request(verb, url, "multipart/form-data; boundary=\"" + boundary + "\"",
              MultipartBody(Multipart(boundary, dumps(payload), files)))
    else
      Request(verb, url, "application/json", if Truthy(payload) then JsonBody(payload) else NoBody)
  }

  /** The whole of `request` up to the network call. */
  function Plan(apiUrl: string, boundary: string, hasSession: bool, verb: string, endpoint: string,
                payloadJson: Json, params: Json, files: seq<File>, dumps: Json -> string): Result<Request>
  {
    if !hasSession then Err(NoSession)
    else
      var ps :- ParamsOf(params);
      Ok(Shape(verb, apiUrl + "/" + WithQuery(endpoint, ParamItems(ps)), boundary, PayloadOf(payloadJson), files, dumps))
  }

  /** Without a session nothing is sent, whatever the arguments. */
  lemma NoSessionFailsFirst(apiUrl: string, boundary: string, verb: string, endpoint: string,
                            payloadJson: Json, params: Json, files: seq<File>, dumps: Json -> string)
    ensures Plan(apiUrl, boundary, false, verb, endpoint, payloadJson, params, files, dumps) ==
      Err(ClientSetupError("No HTTP client session found."))
  {
  }

  /** The body kind: multipart naming the boundary when there are files;
      otherwise JSON, with the `json` keyword only for a truthy payload and
      a falsy payload sent as nothing rather than as `{}`. */
  lemma BodyKind(apiUrl: string, boundary: string, verb: string, endpoint: string,
                 payloadJson: Json, params: Json, files: seq<File>, dumps: Json -> string)
    requires ParamsOf(params).Ok?
    ensures var r := Plan(apiUrl, boundary, true, verb, endpoint, payloadJson, params, files, dumps);
      r.Ok? && r.value.verb == verb
    ensures var r := Plan(apiUrl, boundary, true, verb, endpoint, payloadJson, params, files, dumps);
      files != [] ==> (r.value.contentType == "multipart/form-data; boundary=\"" + boundary + "\""
        && r.value.body.MultipartBody?
        && r.value.body.data == Multipart(boundary, dumps(if Truthy(payloadJson) then payloadJson else JObj([])), files))
    ensures var r := Plan(apiUrl, boundary, true, verb, endpoint, payloadJson, params, files, dumps);
      files == [] ==> (r.value.contentType == "application/json"
        && (Truthy(payloadJson) ==> r.value.body == JsonBody(payloadJson))
        && (!Truthy(payloadJson) ==> r.value.body == NoBody))
  {
  }

  /** The URL is the API root, a slash, and the endpoint with the query of
      the surviving parameters. */
  lemma RequestUrl(apiUrl: string, boundary: string, verb: string, endpoint: string,
                   payloadJson: Json, params: Dict<Json>, files: seq<File>, dumps: Json -> string)
    ensures var r := Plan(apiUrl, boundary, true, verb, endpoint, payloadJson, JObj(params), files, dumps);
      r.Ok? && r.value.url == apiUrl + "/" + WithQuery(endpoint, ParamItems(params))
  {
    assert ParamsOf(JObj(params)) == Ok(params);
    var url := apiUrl + "/" + WithQuery(endpoint, ParamItems(params));
    var shape := Shape(verb, url, boundary, PayloadOf(payloadJson), files, dumps);
    assert shape.url == url;
  }

  // ---------------------------------------------------------------------
  // The response

  /** What `request` leaves the caller with: the response, whose `json()`
      yields the value shown, or a raised exception. */
  datatype Outcome = Returned(json: Json) | Raised(error: HttpErrors.HttpError) | Failed(failure: PyError)

  /** A 204 answers `{}` without reading the body; a status aiohttp deems ok
      (below 400) returns the response; any other one raises the error
      `determine_error` builds, or the exception building it raises. */
  function Respond(status: int, body: Json): Outcome {
    if status == 204 then Returned(JObj([]))
    else if status < 400 then Returned(body)
    else
      match HttpErrors.ErrorOf(HttpErrors.ClassFor(status), body)
      case Ok(e) => Raised(e)
      case Err(x) => Failed(x)
  }

  /** The outcome is a response exactly for statuses below 400; a 204 always
      reads as `{}`; a raised HTTP error carries the class of its status
      and the body it was built from. */
  lemma RespondCases(status: int, body: Json)
    ensures Respond(status, body).Returned? <==> status < 400
    ensures status == 204 ==> Respond(status, body) == Returned(JObj([]))
    ensures status < 400 && status != 204 ==> Respond(status, body) == Returned(body)
    ensures Respond(status, body).Raised? ==>
      Respond(status, body).error.cls == HttpErrors.ClassFor(status) && Respond(status, body).error.data == body
  {
  }

  /** The HTTP client: its token, multipart boundary and whether a session
      has been set up. */
  class HttpClient {
    var botToken: string
    var boundary: string
    var hasSession: bool

    /** `HTTPClient(bot_token, boundary=...)`: no session yet. */
    constructor(botToken: string, boundary: string)
      ensures this.botToken == botToken && this.boundary == boundary && !hasSession
    {
      this.botToken := botToken;
      this.boundary := boundary;
      hasSession := false;
    }

    /** `login`: (re)creates the session; the session itself is not modelled. */
    method Login()
      modifies this
      ensures hasSession && botToken == old(botToken) && boundary == old(boundary)
    {
      hasSession := true;
    }

    /** `create_multipart(data, files)`, given `json.dumps(data, indent=4)`. */
    method CreateMultipart(payloadText: string, files: seq<File>) returns (multipart: seq<byte>)
      ensures multipart == Multipart(boundary, payloadText, files)
    {
      multipart := Utf8(PayloadPart(boundary, payloadText));
      for i := 0 to |files|
        invariant multipart == Utf8(PayloadPart(boundary, payloadText)) + FileParts(boundary, files[..i])
      {
        FilePartsSnoc(boundary, files, i);
        var fl := files[i];
        multipart := multipart + (Utf8(FileHeader(boundary, i, fl.filename)) + fl.content + [10]);
      }
      assert files[..|files|] == files;
      multipart := multipart + Utf8("--" + boundary + "--");
    }

    /** `request(method, endpoint, payload_json=..., params=..., files=...)`
        up to handing the request to the session. */
    method Prepare(apiUrl: string, verb: string, endpoint: string, payloadJson: Json, params: Json,
                   files: seq<File>, dumps: Json -> string) returns (r: Result<Request>)
      ensures r == Plan(apiUrl, boundary, hasSession, verb, endpoint, payloadJson, params, files, dumps)
    {
      var payload := payloadJson;
      if !Truthy(payload) {
        payload := JObj([]);
      }
      if !hasSession {
        return Err(NoSession);
      }
      var ps :- ParamsOf(params);
      var ep := QueryEndpoint(endpoint, ps);
      var contentType, body := "application/json", if Truthy(payload) then JsonBody(payload) else NoBody;
      if files != [] {
        var multipart := CreateMultipart(dumps(payload), files);
        contentType, body := "multipart/form-data; boundary=\"" + boundary + "\"", MultipartBody(multipart);
      }
      r := Ok(Request(verb, apiUrl + "/" + ep, contentType, body));
    }

    /** The endpoint after the parameter loop: `?` and the joined list
        appended when the list is not empty. */
    static method QueryEndpoint(endpoint: string, params: Dict<Json>) returns (ep: string)
      ensures ep == WithQuery(endpoint, ParamItems(params))
    {
      ep := endpoint;
      if params != [] {
        var paramList := BuildParamList(params);
        if paramList != [] {
          ep := endpoint + "?" + Join("&", paramList);
        }
      }
    }

    /** The response handling of `request`. */
    method HandleResponse(status: int, body: Json) returns (o: Outcome)
      ensures o == Respond(status, body)
    {
      if status == 204 {
        return Returned(JObj([]));
      }
      if !(status < 400) {
        var e := HttpErrors.DetermineError(status, body);
        match e
        case Ok(err) => return Raised(err);
        case Err(x) => return Failed(x);
      }
      return Returned(body);
    }
  }
}
