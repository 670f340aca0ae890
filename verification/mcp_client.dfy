/** `MCPClient.call_tool`: one JSON-RPC `tools/call` request against the MCP
    endpoint, and the normalisation of the response envelope into the value
    the report sections work on. The HTTP round trip and `json.loads` are
    parameters (`Backend`). */
module McpClient {
  import opened PyValues

  /** What `requests.post(...)`, `raise_for_status()` and `response.json()`
      deliver: a decoded body, or a `requests` exception (connection error,
      timeout, non-2xx status, a body that is not JSON) with its text. */
  datatype Transport = Failed(message: string) | Delivered(body: Json)

  /** The outside world of the client: the MCP endpoint as a function of the
      request payload, and `json.loads` (None where it raises
      `JSONDecodeError`). */
  datatype Backend = Backend(post: Json -> Transport, loads: string -> Option<Json>)

  /** The client's only state: the id of the last request it sent. */
  datatype Client = Client(requestId: nat)

  /** One call: the client after it, the payload it posted, and what
      `call_tool` returned or raised. */
  datatype ToolCall = ToolCall(client: Client, request: Json, result: Outcome<Json>)

  /** The JSON-RPC payload for a `tools/call` of `name` with request id `id`.
      `arguments or {}` sends an empty dict both for None and for `{}`, so the
      arguments are the entries of a dict. */
  function Payload(name: string, arguments: seq<Entry>, id: nat): Json {
    JDict([
      Entry("jsonrpc", JStr("2.0")),
      Entry("method", JStr("tools/call")),
      Entry("params", JDict([Entry("name", JStr(name)), Entry("arguments", JDict(arguments))])),
      Entry("id", JInt(id))
    ])
  }

  /** The in-band marker `{"error": str(e)}` returned for a `requests`
      exception. */
  function ErrorMarker(message: string): (r: Json)
    ensures Contains(r, ErrorKey) == Ok(true)
  {
    var r := JDict([Entry(ErrorKey, JStr(message))]);
    assert r.entries[0].key == ErrorKey;
    r
  }

  /** The fallback `{"raw": text}` for text that is not JSON. */
  function RawText(text: string): Json {
    JDict([Entry("raw", JStr(text))])
  }

  /** `json.loads(text)` with its `JSONDecodeError` turned into the raw
      fallback. Only a str can be decoded: any other `text` makes
      `json.loads` raise a TypeError, which is not caught. */
  function DecodeText(text: Json, loads: string -> Option<Json>): (r: Outcome<Json>)
    ensures text.JStr? && loads(text.s).Some? ==> r == Ok(loads(text.s).value)
    ensures text.JStr? && loads(text.s).None? ==> r == Ok(RawText(text.s))
    ensures !text.JStr? ==> r == Raise(TypeError)
  {
    if !text.JStr? then Raise(TypeError)
    else match loads(text.s)
      case Some(v) => Ok(v)
      case None => Ok(RawText(text.s))
  }

  /** The body of the `try` block after the HTTP call, on the decoded
      envelope `result`. Every exception raised here escapes `call_tool`:
      its `except` clause catches only `requests` exceptions. */
  function Normalise(result: Json, loads: string -> Option<Json>): (r: Outcome<Json>)
    // An envelope whose `"error" in result` holds raises: a dict raises the
    // plain "MCP Error" exception, a list or str fails on `result['error']`.
    ensures result.JDict? && HasKey(result.entries, ErrorKey) ==>
      r == Raise(Raised("MCP Error: " + Show(Lookup(result.entries, ErrorKey).value)))
    ensures (result.JList? || result.JStr?) && Contains(result, ErrorKey) == Ok(true) ==>
      r == Raise(TypeError)
    // `"error" in result` itself raises on None, a bool or a number.
    ensures !(result.JDict? || result.JList? || result.JStr?) ==> r == Raise(TypeError)
    // An envelope without `"error"` is returned unchanged when it has no
    // `result`, when its `result` dict has no `content`, or when that
    // `content` is falsy.
    ensures result.JDict? && !HasKey(result.entries, ErrorKey) && !HasKey(result.entries, "result") ==>
      r == Ok(result)
    ensures (result.JList? || result.JStr?) && Contains(result, ErrorKey) == Ok(false) && Contains(result, "result") == Ok(false) ==>
      r == Ok(result)
    ensures result.JDict? && !HasKey(result.entries, ErrorKey) && HasKey(result.entries, "result") ==>
      var inner := Lookup(result.entries, "result").value;
      inner.JDict? && (!HasKey(inner.entries, "content") || !Truthy(Lookup(inner.entries, "content").value)) ==>
      r == Ok(result)
    // A list or str envelope holding `"result"` fails on `result["result"]`.
    ensures (result.JList? || result.JStr?) && Contains(result, ErrorKey) == Ok(false) && Contains(result, "result") == Ok(true) ==>
      r == Raise(TypeError)
  {
    var hasError :- Contains(result, ErrorKey);
    if hasError then
      var e :- Index(result, ErrorKey);
      Raise(Raised("MCP Error: " + Show(e)))
    else
      var hasResult := Contains(result, "result").value;
      if !hasResult then Ok(result)
      else
        var inner :- Index(result, "result");
        var hasContent :- Contains(inner, "content");
        if !hasContent then Ok(result)
        else
          var content :- Index(inner, "content");
          if !Truthy(content) then Ok(result)
          else
            var n :- Len(content);
            if n == 0 then Ok(result)
            else
              var first :- First(content);
              var text :- Get(first, "text", JStr("{}"));
              DecodeText(text, loads)
  }

  /** What `call_tool` returns or raises for `request`. A `requests`
      exception becomes the in-band error marker. */
  function Answer(b: Backend, request: Json): Outcome<Json> {
    match b.post(request)
    case Failed(message) => Ok(ErrorMarker(message))
    case Delivered(body) => Normalise(body, b.loads)
  }

  /** `call_tool(name, arguments)`: the request id is incremented once,
      before the request is sent, and is the id the payload carries. */
  function CallTool(c: Client, name: string, arguments: seq<Entry>, b: Backend): (r: ToolCall)
    ensures r.client.requestId == c.requestId + 1
    ensures r.request.JDict? && Lookup(r.request.entries, "id") == Some(JInt(r.client.requestId))
    ensures r.result == Answer(b, r.request)
  {
    var id := c.requestId + 1;
    var request := Payload(name, arguments, id);
    assert request.entries[3].key == "id";
    ToolCall(Client(id), request, Answer(b, request))
  }

  // -------------------------------------------------------------- lemmas

  /** A well-formed MCP reply: no `error`, and `result.content` a non-empty
      list whose first element is a dict. */
  ghost predicate ContentEnvelope(result: Json, first: seq<Entry>) {
    && result.JDict?
    && !HasKey(result.entries, ErrorKey)
    && Lookup(result.entries, "result").Some?
    && var inner := Lookup(result.entries, "result").value;
    && inner.JDict?
    && Lookup(inner.entries, "content").Some?
    && var content := Lookup(inner.entries, "content").value;
    && content.JList?
    && |content.items| > 0
    && content.items[0] == JDict(first)
  }

  /** For a reply carrying `content`, `call_tool` returns the second decode of
      `content[0].text`, or `{"raw": text}` when that text is not JSON. */
  lemma ContentIsDecoded(result: Json, first: seq<Entry>, text: string, loads: string -> Option<Json>)
    requires ContentEnvelope(result, first)
    requires Lookup(first, "text") == Some(JStr(text))
    ensures loads(text).Some? ==> Normalise(result, loads) == Ok(loads(text).value)
    ensures loads(text).None? ==> Normalise(result, loads) == Ok(RawText(text))
  {
    var inner := Lookup(result.entries, "result").value;
    assert HasKey(result.entries, "result");
    assert HasKey(inner.entries, "content");
    assert Normalise(result, loads) == DecodeText(JStr(text), loads);
  }

  /** A missing `text` defaults to `"{}"`, which `json.loads` decodes to an
      empty dict. */
  lemma MissingTextIsEmptyDict(result: Json, first: seq<Entry>, loads: string -> Option<Json>)
    requires ContentEnvelope(result, first)
    requires Lookup(first, "text").None?
    requires loads("{}") == Some(JDict([]))
    ensures Normalise(result, loads) == Ok(JDict([]))
  {
    var inner := Lookup(result.entries, "result").value;
    assert HasKey(result.entries, "result");
    assert HasKey(inner.entries, "content");
    assert Normalise(result, loads) == DecodeText(JStr("{}"), loads);
  }

  /** An empty `content` list is falsy, so the whole envelope is returned. */
  lemma EmptyContentReturnsEnvelope(result: Json, loads: string -> Option<Json>)
    requires result.JDict? && !HasKey(result.entries, ErrorKey)
    requires Lookup(result.entries, "result").Some?
    requires Lookup(result.entries, "result").value.JDict?
    requires Lookup(Lookup(result.entries, "result").value.entries, "content") == Some(JList([]))
    ensures Normalise(result, loads) == Ok(result)
  {
    var inner := Lookup(result.entries, "result").value;
    assert HasKey(result.entries, "result");
    assert HasKey(inner.entries, "content");
  }

  /** A dict envelope whose `result` is not a dict: a list or str `result`
      without `"content"` is returned unchanged, one holding `"content"` fails
      on `result["result"]["content"]`, and `"content" in` fails on None, a
      bool or a number. */
  lemma ResultOfOtherShape(result: Json, loads: string -> Option<Json>)
    requires result.JDict? && !HasKey(result.entries, ErrorKey)
    requires Lookup(result.entries, "result").Some?
    ensures var inner := Lookup(result.entries, "result").value;
            && ((inner.JList? || inner.JStr?) && Contains(inner, "content") == Ok(false) ==> Normalise(result, loads) == Ok(result))
            && ((inner.JList? || inner.JStr?) && Contains(inner, "content") == Ok(true) ==> Normalise(result, loads) == Raise(TypeError))
            && (!(inner.JDict? || inner.JList? || inner.JStr?) ==> Normalise(result, loads) == Raise(TypeError))
  {
    assert HasKey(result.entries, "result");
  }

  /** A truthy `content` that is not a list of dicts: a dict has no key 0, a
      one-character str has no `get`, `len` fails on a bool or a number, a
      first item that is not a dict has no `get`, and `json.loads` fails on a
      `text` that is not a str. */
  lemma ContentOfOtherShape(result: Json, content: Json, loads: string -> Option<Json>)
    requires result.JDict? && !HasKey(result.entries, ErrorKey)
    requires Lookup(result.entries, "result").Some?
    requires Lookup(result.entries, "result").value.JDict?
    requires Lookup(Lookup(result.entries, "result").value.entries, "content") == Some(content)
    requires Truthy(content)
    ensures content.JDict? ==> Normalise(result, loads) == Raise(KeyError)
    ensures content.JStr? ==> Normalise(result, loads) == Raise(AttributeError)
    ensures !(content.JDict? || content.JList? || content.JStr?) ==> Normalise(result, loads) == Raise(TypeError)
    ensures content.JList? && !content.items[0].JDict? ==> Normalise(result, loads) == Raise(AttributeError)
    ensures content.JList? && content.items[0].JDict? ==>
      var text := Lookup(content.items[0].entries, "text");
      text.Some? && !text.value.JStr? ==> Normalise(result, loads) == Raise(TypeError)
  {
    var inner := Lookup(result.entries, "result").value;
    assert HasKey(result.entries, "result");
    assert HasKey(inner.entries, "content");
  }

  /** A transport failure never raises: the section sees the error marker. */
  lemma TransportFailureIsMarker(b: Backend, request: Json)
    requires b.post(request).Failed?
    ensures Answer(b, request).Ok?
    ensures Contains(Answer(b, request).value, ErrorKey) == Ok(true)
  {
  }

  /** Consecutive calls on one client carry consecutive request ids. */
  lemma RequestIdsAreConsecutive(c: Client, n1: string, a1: seq<Entry>, n2: string, a2: seq<Entry>, b: Backend)
    ensures var first := CallTool(c, n1, a1, b);
            var second := CallTool(first.client, n2, a2, b);
            && Lookup(first.request.entries, "id") == Some(JInt(c.requestId + 1))
            && Lookup(second.request.entries, "id") == Some(JInt(c.requestId + 2))
  {
  }
}
