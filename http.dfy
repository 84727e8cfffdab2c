/** `authenticatedFetch`: how a request's headers are decided from the stored
    token and the caller's options, and how the HTTP exchange that follows is
    turned into a value or a thrown error. The transport is a parameter. */
module Http {
  import opened Base
  import opened Text
  import opened Js

  /** Browser local storage: key to string. */
  type Store = map<string, string>

  /** `localStorage.getItem("authToken")`: `null` (`None`) when the key is absent. */
  function GetAuthToken(store: Store): (r: Option<string>)
    ensures r.Some? <==> "authToken" in store
    ensures r.Some? ==> r.value == store["authToken"]
  {
    if "authToken" in store then Some(store["authToken"]) else None
  }

  /** A caller header value; only string values are copied. */
  datatype HeaderValue = Text(s: string) | NonText

  /** A part of a multipart body: the file itself or a text field. */
  datatype FormValue = FilePart(file: nat) | TextPart(text: string)

  /** A request body: none, a serialised JSON text, or `FormData`. */
  datatype RequestBody = NoBody | JsonText(json: string) | Form(entries: seq<(string, FormValue)>)

  /** The caller's `RequestInit`: HTTP method (`verb`), headers in entry order, body. */
  datatype RequestOptions = RequestOptions(verb: string, headers: seq<(string, HeaderValue)>, body: RequestBody)

  /** What is handed to the transport. */
  datatype Request = Request(url: string, verb: string, headers: map<string, string>, body: RequestBody)

  /** A response body: parsed JSON, or text that `response.json()` rejects. */
  datatype Body = Parsed(v: JsValue) | Unparseable

  datatype Response = Response(status: int, body: Body)

  /** The outcome of `fetch`: a response, or a rejected promise. */
  datatype Exchange = Delivered(response: Response) | TransportFailed

  /** The errors the data service lets escape. */
  datatype Failure =
    | PlainError(message: string)                    // `new Error(message)` with nothing attached
    | ValidationFailed(status: int, errors: JsValue)   // `Error("Validation failed")` with `status`, `errors`
    | RequestFailed(message: string, status: int, data: JsValue)
    | TypeError                                      // a property read on `null`
    | SyntaxError                                    // a success body that is not JSON
    | NetworkError                                   // `fetch` itself rejected
    | RangeError                                     // `toISOString` on an invalid date

  // ---------------------------------------------------------------- headers

  /** The value `obj[name]` has after copying `entries` in order: the last
      string value given for `name`. */
  function LastText(entries: seq<(string, HeaderValue)>, name: string): (r: Option<string>)
    ensures r.Some? ==> exists i | 0 <= i < |entries| :: entries[i].0 == name
    decreases |entries|
  {
    if entries == [] then None
    else
      var last := entries[|entries| - 1];
      if last.0 == name && last.1.Text? then Some(last.1.s)
      else LastText(entries[..|entries| - 1], name)
  }

  function Lookup<K, V>(m: map<K, V>, k: K): Option<V> {
    if k in m then Some(m[k]) else None
  }

  /** The header `name` after the bearer header and the caller's entries:
      a caller string wins; otherwise a truthy token gives `Bearer <token>`. */
  function Copied(store: Store, entries: seq<(string, HeaderValue)>, name: string): Option<string> {
    match LastText(entries, name)
    case Some(v) => Some(v)
    case None =>
      var token := GetAuthToken(store);
      if name == "Authorization" && token.Some? && token.value != "" then Some("Bearer " + token.value)
      else None
  }

  /** The header `name` that is finally sent. */
  function HeaderFor(store: Store, entries: seq<(string, HeaderValue)>, body: RequestBody, name: string): Option<string> {
    if name == "Content-Type" && !body.Form? then Some("application/json")
    else Copied(store, entries, name)
  }

  function HeaderNames(entries: seq<(string, HeaderValue)>): set<string> {
    {"Authorization", "Content-Type"} + set i | 0 <= i < |entries| :: entries[i].0
  }

  /** The whole header record, one entry per name that `HeaderFor` gives a value. */
  function ExpectedHeaders(store: Store, entries: seq<(string, HeaderValue)>, body: RequestBody): map<string, string> {
    map k | k in HeaderNames(entries) && HeaderFor(store, entries, body, k).Some?
      :: HeaderFor(store, entries, body, k).value
  }

  /** Builds the header record step by step, as `authenticatedFetch` does. */
  method BuildHeaders(store: Store, entries: seq<(string, HeaderValue)>, body: RequestBody)
    returns (headers: map<string, string>)
    ensures headers == ExpectedHeaders(store, entries, body)
  {
    var token := GetAuthToken(store);
    headers := if token.Some? && token.value != "" then map["Authorization" := "Bearer " + token.value] else map[];
    var i := 0;
    while i < |entries|
      invariant 0 <= i <= |entries|
      invariant forall k :: Lookup(headers, k) == Copied(store, entries[..i], k)
    {
      var (key, value) := entries[i];
      ghost var before := headers;
      if value.Text? {
        headers := headers[key := value.s];
      }
      assert entries[..i + 1][..i] == entries[..i];
      forall k ensures Lookup(headers, k) == Copied(store, entries[..i + 1], k) {
        assert Lookup(before, k) == Copied(store, entries[..i], k);
      }
      i := i + 1;
    }
    assert entries[..i] == entries;
    ghost var copied := headers;
    if !body.Form? {
      headers := headers["Content-Type" := "application/json"];
    }
    forall k | k in headers ensures k in HeaderNames(entries) {
      if k != "Authorization" && k != "Content-Type" {
        assert Lookup(copied, k) == Copied(store, entries, k);
        assert LastText(entries, k).Some?;
        var j :| 0 <= j < |entries| && entries[j].0 == k;
      }
    }
  }

  /** The bearer header is sent exactly when a non-empty token is stored,
      unless the caller supplied a string `Authorization` of its own. */
  lemma AuthorizationHeader(store: Store, entries: seq<(string, HeaderValue)>, body: RequestBody)
    requires LastText(entries, "Authorization").None?
    ensures "Authorization" in ExpectedHeaders(store, entries, body) <==>
      "authToken" in store && store["authToken"] != ""
    ensures "Authorization" in ExpectedHeaders(store, entries, body) ==>
      ExpectedHeaders(store, entries, body)["Authorization"] == "Bearer " + store["authToken"]
  {
  }

  /** A caller header whose values are never strings is not sent (the two
      headers the fetch sets itself aside). */
  lemma NonTextDropped(store: Store, entries: seq<(string, HeaderValue)>, body: RequestBody, name: string)
    requires name != "Authorization" && name != "Content-Type"
    requires forall i | 0 <= i < |entries| && entries[i].0 == name :: entries[i].1 == NonText
    ensures name !in ExpectedHeaders(store, entries, body)
  {
    NoTextNoValue(entries, name);
  }

  lemma {:induction false} NoTextNoValue(entries: seq<(string, HeaderValue)>, name: string)
    requires forall i | 0 <= i < |entries| && entries[i].0 == name :: entries[i].1 == NonText
    ensures LastText(entries, name) == None
    decreases |entries|
  {
    if entries != [] {
      NoTextNoValue(entries[..|entries| - 1], name);
    }
  }

  /** `Content-Type: application/json` is sent, overriding the caller, exactly
      when the body is not `FormData`; with `FormData` only a caller string is sent. */
  lemma ContentTypeHeader(store: Store, entries: seq<(string, HeaderValue)>, body: RequestBody)
    ensures !body.Form? ==> Lookup(ExpectedHeaders(store, entries, body), "Content-Type") == Some("application/json")
    ensures body.Form? ==> Lookup(ExpectedHeaders(store, entries, body), "Content-Type") == LastText(entries, "Content-Type")
  {
  }

  // ---------------------------------------------------------------- responses

  /** `response.ok` */
  predicate IsOk(status: int) { 200 <= status <= 299 }

  /** `errorData`: the parsed error body, or the stand-in built when parsing fails. */
  function ErrorData(resp: Response): (r: JsValue)
    ensures resp.body.Parsed? ==> r == resp.body.v
    ensures resp.body.Unparseable? ==> (r.Obj? && r.props.Keys == {"detail", "status"}
      && r.props["detail"] == Str("Request failed with status " + IntToString(resp.status))
      && r.props["status"] == Num(resp.status))
  {
    match resp.body
    case Parsed(v) => v
    case Unparseable =>
      Obj(map["detail" := Str("Request failed with status " + IntToString(resp.status)), "status" := Num(resp.status)])
  }

  /** The error thrown for a non-ok response. Reading `detail` on `null` throws. */
  function FailureOf(status: int, data: JsValue): (r: Failure)
    ensures r.TypeError? <==> Nullish(data)
    ensures r.ValidationFailed? <==> !Nullish(data) && status == 422
    ensures r.ValidationFailed? ==> r.status == 422
    ensures r.TypeError? || r.ValidationFailed? || (r.RequestFailed? && r.status == status && r.data == data)
    ensures r.RequestFailed? && Truthy(Get(data, "detail")) ==> r.message == ToJsString(Get(data, "detail"))
  {
    if Nullish(data) then TypeError
    else if status == 422 then ValidationFailed(422, Or(Or(Get(data, "detail"), Get(data, "errors")), data))
    else RequestFailed(ToJsString(Or(Or(Get(data, "detail"), Get(data, "message")), Str("Request failed"))), status, data)
  }

  /** What `authenticatedFetch` resolves to, or the error it rejects with. */
  function Classify(e: Exchange): (r: Result<JsValue, Failure>)
    ensures r.Ok? ==> e.Delivered? && IsOk(e.response.status)
    ensures e.Delivered? && e.response.status == 204 ==> r == Ok(Null)
    ensures e.TransportFailed? ==> r == Err(NetworkError)
    ensures e.Delivered? && !IsOk(e.response.status) ==> r == Err(FailureOf(e.response.status, ErrorData(e.response)))
    ensures e.Delivered? && IsOk(e.response.status) && e.response.status != 204 ==>
      r == (if e.response.body.Parsed? then Ok(e.response.body.v) else Err(SyntaxError))
  {
    match e
    case TransportFailed => Err(NetworkError)
    case Delivered(resp) =>
      if !IsOk(resp.status) then Err(FailureOf(resp.status, ErrorData(resp)))
      else if resp.status == 204 then Ok(Null)
      else
        match resp.body
        case Parsed(v) => Ok(v)
        case Unparseable => Err(SyntaxError)
  }

  /** Any 2xx other than 204 resolves to the parsed body. */
  lemma SuccessReturnsBody(status: int, v: JsValue)
    requires IsOk(status) && status != 204
    ensures Classify(Delivered(Response(status, Parsed(v)))) == Ok(v)
    ensures Classify(Delivered(Response(status, Unparseable))) == Err(SyntaxError)
  {
  }

  /** 422 with an object body throws the validation error carrying
      `detail || errors || body`; the carried value is always truthy. */
  lemma ValidationFailure(props: map<string, JsValue>)
    ensures var r := Classify(Delivered(Response(422, Parsed(Obj(props)))));
      r.Err? && r.error.ValidationFailed? && r.error.status == 422
      && Truthy(r.error.errors)
      && (("detail" in props && Truthy(props["detail"])) ==> r.error.errors == props["detail"])
      && (("detail" !in props || !Truthy(props["detail"])) && "errors" in props && Truthy(props["errors"])
          ==> r.error.errors == props["errors"])
      && (("detail" !in props || !Truthy(props["detail"])) && ("errors" !in props || !Truthy(props["errors"]))
          ==> r.error.errors == Obj(props))
  {
  }

  /** Any other failure with an object body throws `detail || message || "Request failed"`
      with the status and the body attached. */
  lemma GenericFailure(status: int, props: map<string, JsValue>)
    requires !IsOk(status) && status != 422
    ensures var r := Classify(Delivered(Response(status, Parsed(Obj(props)))));
      r.Err? && r.error.RequestFailed? && r.error.status == status && r.error.data == Obj(props)
      && (("detail" in props && Truthy(props["detail"])) ==> r.error.message == ToJsString(props["detail"]))
      && (("detail" !in props || !Truthy(props["detail"])) && "message" in props && Truthy(props["message"])
          ==> r.error.message == ToJsString(props["message"]))
      && (("detail" !in props || !Truthy(props["detail"])) && ("message" !in props || !Truthy(props["message"]))
          ==> r.error.message == "Request failed")
  {
  }

  /** A failure whose body is not JSON reports "Request failed with status N";
      for 422 that text is the `errors` value. */
  lemma UnparseableFailure(status: int)
    requires !IsOk(status)
    ensures status != 422 ==>
      Classify(Delivered(Response(status, Unparseable))).error.message
        == "Request failed with status " + IntToString(status)
    ensures status == 422 ==>
      Classify(Delivered(Response(status, Unparseable))).error.errors == Str("Request failed with status 422")
  {
    var d := ErrorData(Response(status, Unparseable));
    assert Get(d, "detail") == Str("Request failed with status " + IntToString(status));
  }

  /** A failure whose body is JSON `null` throws a `TypeError`: the handler
      reads `detail` on it. */
  lemma NullErrorBody(status: int)
    requires !IsOk(status)
    ensures Classify(Delivered(Response(status, Parsed(Null)))) == Err(TypeError)
  {
  }

  /** `authenticatedFetch(url, options)` with the transport `send`. */
  method AuthenticatedFetch(store: Store, url: string, options: RequestOptions, send: Request -> Exchange)
    returns (r: Result<JsValue, Failure>)
    ensures r == Classify(send(Request(url, options.verb, ExpectedHeaders(store, options.headers, options.body), options.body)))
  {
    var headers := BuildHeaders(store, options.headers, options.body);
    var exchange := send(Request(url, options.verb, headers, options.body));
    r := Classify(exchange);
  }

  // ---------------------------------------------------------------- parameter lists

  /** The first value appended under `key` (`URLSearchParams.get`, `FormData.get`). */
  function Find<V>(ps: seq<(string, V)>, key: string): Option<V>
    decreases |ps|
  {
    if ps == [] then None
    else if ps[0].0 == key then Some(ps[0].1)
    else Find(ps[1..], key)
  }

  lemma {:induction false} FindAppend<V>(a: seq<(string, V)>, b: seq<(string, V)>, key: string)
    ensures Find(a + b, key) == if Find(a, key).Some? then Find(a, key) else Find(b, key)
    decreases |a|
  {
    if a != [] {
      assert (a + b)[1..] == a[1..] + b;
      FindAppend(a[1..], b, key);
    } else {
      assert a + b == b;
    }
  }

  /** The pair appended for position `k`, if its value is present. */
  function Entry<V>(names: seq<string>, values: seq<Option<V>>, k: nat): seq<(string, V)>
    requires k < |names| == |values|
  {
    if values[k].Some? then [(names[k], values[k].value)] else []
  }

  /** The pairs appended for the first `n` positions, in the order of `names`:
      `(names[k], values[k])` for each present value. */
  function PresentUpTo<V>(names: seq<string>, values: seq<Option<V>>, n: nat): (r: seq<(string, V)>)
    requires n <= |names| == |values|
    ensures |r| <= n
    decreases n
  {
    if n == 0 then [] else PresentUpTo(names, values, n - 1) + Entry(names, values, n - 1)
  }

  /** Appending further positions only extends what is already appended. */
  lemma {:induction false} PresentUpToPrefix<V>(names: seq<string>, values: seq<Option<V>>, m: nat, n: nat)
    requires m <= n <= |names| == |values|
    ensures |PresentUpTo(names, values, m)| <= |PresentUpTo(names, values, n)|
    ensures PresentUpTo(names, values, n)[..|PresentUpTo(names, values, m)|] == PresentUpTo(names, values, m)
    decreases n
  {
    if m < n {
      PresentUpToPrefix(names, values, m, n - 1);
      var p := PresentUpTo(names, values, n - 1);
      assert (p + Entry(names, values, n - 1))[..|p|] == p;
    }
  }

  /** `if (value) ps.append(name, value)`, as the `n`-th of the appends that
      build `Present(names, values)`. */
  method AppendIf<V>(ps: seq<(string, V)>, name: string, value: Option<V>,
                     ghost names: seq<string>, ghost values: seq<Option<V>>, ghost n: nat)
    returns (r: seq<(string, V)>)
    requires n < |names| == |values| && names[n] == name && values[n] == value
    requires ps == PresentUpTo(names, values, n)
    ensures r == PresentUpTo(names, values, n + 1)
  {
    r := ps;
    if value.Some? {
      r := r + [(name, value.value)];
    }
  }

  function Present<V>(names: seq<string>, values: seq<Option<V>>): seq<(string, V)>
    requires |names| == |values|
  {
    PresentUpTo(names, values, |names|)
  }

  /** Among the first `n` positions, each name is found with its value exactly
      when that value is present; later names are not found at all. */
  lemma {:induction false} PresentUpToFind<V>(names: seq<string>, values: seq<Option<V>>, n: nat, k: nat)
    requires n <= |names| == |values| && Distinct(names) && k < |names|
    ensures Find(PresentUpTo(names, values, n), names[k]) == if k < n then values[k] else None
    decreases n
  {
    if n > 0 {
      PresentUpToFind(names, values, n - 1, k);
      FindAppend(PresentUpTo(names, values, n - 1), Entry(names, values, n - 1), names[k]);
    }
  }

  /** Each listed name is found with its value exactly when that value is present. */
  lemma PresentFind<V>(names: seq<string>, values: seq<Option<V>>, k: nat)
    requires |names| == |values| && Distinct(names) && k < |names|
    ensures Find(Present(names, values), names[k]) == values[k]
  {
    PresentUpToFind(names, values, |names|, k);
  }

  /** `Index(names, k)`: the position of `k` among `names`. */
  function Index(names: seq<string>, k: string): (r: nat)
    requires k in names
    ensures r < |names| && names[r] == k
    ensures Distinct(names) ==> forall j | 0 <= j < |names| && names[j] == k :: j == r
    decreases |names|
  {
    if names[0] == k then 0 else 1 + Index(names[1..], k)
  }

  /** In a list without repetitions, the name at position `k` is found at `k`. */
  lemma IndexAt(names: seq<string>, k: nat)
    requires Distinct(names) && k < |names|
    ensures Index(names, names[k]) == k
  {
  }

  /** The names appended for the first `n` positions are listed names before
      position `n`. */
  lemma {:induction false} PresentUpToNames<V>(names: seq<string>, values: seq<Option<V>>, n: nat)
    requires n <= |names| == |values| && Distinct(names)
    ensures forall i | 0 <= i < |PresentUpTo(names, values, n)| ::
      PresentUpTo(names, values, n)[i].0 in names && Index(names, PresentUpTo(names, values, n)[i].0) < n
    decreases n
  {
    if n > 0 {
      PresentUpToNames(names, values, n - 1);
      var prev := PresentUpTo(names, values, n - 1);
      var r := PresentUpTo(names, values, n);
      assert r == prev + Entry(names, values, n - 1);
      forall i | 0 <= i < |r| ensures r[i].0 in names && Index(names, r[i].0) < n {
        if i >= |prev| {
          assert r[i].0 == names[n - 1];
          IndexAt(names, n - 1);
        } else {
          assert r[i] == prev[i];
        }
      }
    }
  }

  /** The names appended for the first `n` positions come in increasing
      position. */
  lemma {:induction false} PresentUpToOrder<V>(names: seq<string>, values: seq<Option<V>>, n: nat)
    requires n <= |names| == |values| && Distinct(names)
    ensures forall i | 0 <= i < |PresentUpTo(names, values, n)| :: PresentUpTo(names, values, n)[i].0 in names
    ensures forall i, j | 0 <= i < j < |PresentUpTo(names, values, n)| ::
      Index(names, PresentUpTo(names, values, n)[i].0) < Index(names, PresentUpTo(names, values, n)[j].0)
    decreases n
  {
    PresentUpToNames(names, values, n);
    if n > 0 {
      PresentUpToOrder(names, values, n - 1);
      PresentUpToNames(names, values, n - 1);
      var prev := PresentUpTo(names, values, n - 1);
      var r := PresentUpTo(names, values, n);
      assert r == prev + Entry(names, values, n - 1);
      IndexAt(names, n - 1);
      forall i, j | 0 <= i < j < |r| ensures Index(names, r[i].0) < Index(names, r[j].0) {
        assert r[i] == prev[i];
        if j >= |prev| {
          assert r[j].0 == names[n - 1];
        } else {
          assert r[j] == prev[j];
        }
      }
    }
  }

  /** The appended names keep the listed order. */
  lemma PresentOrder<V>(names: seq<string>, values: seq<Option<V>>)
    requires |names| == |values| && Distinct(names)
    ensures forall i | 0 <= i < |Present(names, values)| :: Present(names, values)[i].0 in names
    ensures forall i, j | 0 <= i < j < |Present(names, values)| ::
      Index(names, Present(names, values)[i].0) < Index(names, Present(names, values)[j].0)
  {
    PresentUpToOrder(names, values, |names|);
  }
}
