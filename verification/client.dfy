/**
 * The client objects: `EventBrite`, which builds the request, fetches it and
 * classifies the answer, and the namespace `Proxy` objects whose generated
 * operations call it. The network and the library functions the client relies
 * on (`repr`, `simplejson.dumps`/`loads`, the quoting done by `urllib.urlencode`,
 * the URL opener) are supplied as a `Runtime`.
 */
module Client {
  import opened Wrappers
  import opened Text
  import opened PyObjects
  import opened Catalog
  import opened Request
  import opened Response

  const EVENTBRITE_URL := "http://www.eventbrite.com/"
  const EVENTBRITE_SECURE_URL := "https://www.eventbrite.com/"

  /** How a URL is opened: directly, or through a `urllib2.ProxyHandler` built from these settings. */
  datatype Route = Direct | ThroughProxy(settings: PyObject)

  /** The library and network functions the client calls. */
  datatype Runtime = Runtime(
    repr: PyObject -> string,
    dumps: PyObject -> string,
    loads: string -> Result<PyObject, PyError>,
    /** What `urllib.urlencode` makes of a dict once every value is a str: the quoted pairs joined by '&'. */
    quote: map<string, string> -> string,
    fetch: (Route, string) -> Result<string, PyError>)

  /** What calling a client object returns: the object itself (called without a method) or a decoded response. */
  datatype CallResult = Itself(obj: object) | Decoded(value: PyObject)

  /** A Python dict that the client updates in place. */
  class MutableDict {
    var items: map<string, PyObject>

    constructor (items: map<string, PyObject>)
      ensures this.items == items
    {
      this.items := items;
    }
  }

  /** The contents of a dict argument, or None for Python's None. */
  function ItemsOf(d: MutableDict?): Option<map<string, PyObject>>
    reads d
  {
    if d == null then None else Some(d.items)
  }

  /** `if self.proxy:` a truthy proxy setting sends the request through a proxy handler. */
  function RouteOf(proxy: PyObject): (r: Route)
    ensures r.Direct? <==> !Truthy(proxy)
    ensures r.ThroughProxy? ==> r.settings == proxy
  {
    if Truthy(proxy) then ThroughProxy(proxy) else Direct
  }

  function Lift(r: Result<PyObject, PyError>): Result<CallResult, PyError> {
    match r
    case Ok(v) => Ok(Decoded(v))
    case Err(e) => Err(e)
  }

  class EventBrite {
    const appKey: PyObject
    const userKey: PyObject
    const sessionKey: PyObject
    const sessionKeyExpires: PyObject
    const internal: PyObject
    const proxy: PyObject
    const eventbriteUrl: string
    const eventbriteSecureUrl: string
    /** The namespace attributes (`self.events`, ...) set from the method table. */
    var namespaces: map<string, Proxy>

    /** `p` is the proxy of namespace `ns` on this client: `<Ns>Proxy(self, 'eventbrite.<ns>')`. */
    predicate Serves(p: Proxy, ns: string) {
      && ns in METHODS
      && p.client == this
      && p.name == "eventbrite." + ns
      && p.operations == METHODS[ns]
    }

    /**
     * A client: the two base URLs default to Event Brite's, and one proxy is made per
     * namespace. The session fields and the `internal` setting are kept only to mirror
     * `__init__`; no part of the request pipeline reads them.
     */
    constructor (appKey: PyObject, userKey: PyObject, internal: PyObject, proxy: PyObject,
                 eventbriteUrl: Option<string>, eventbriteSecureUrl: Option<string>)
      ensures this.appKey == appKey && this.userKey == userKey
      ensures sessionKey == PyNone && sessionKeyExpires == PyNone
      ensures this.internal == internal && this.proxy == proxy
      ensures this.eventbriteUrl == eventbriteUrl.GetOr(EVENTBRITE_URL)
      ensures this.eventbriteSecureUrl == eventbriteSecureUrl.GetOr(EVENTBRITE_SECURE_URL)
      ensures namespaces.Keys == METHODS.Keys
      ensures forall ns :: ns in namespaces ==> Serves(namespaces[ns], ns)
      ensures fresh(namespaces.Values)
    {
      this.appKey := appKey;
      this.userKey := userKey;
      sessionKey := PyNone;
      sessionKeyExpires := PyNone;
      this.internal := internal;
      this.proxy := proxy;
      this.eventbriteUrl := eventbriteUrl.GetOr(EVENTBRITE_URL);
      this.eventbriteSecureUrl := eventbriteSecureUrl.GetOr(EVENTBRITE_SECURE_URL);
      namespaces := map[];
      new;
      AddNamespaces();
    }

    /** The loop at the end of `__init__`: one namespace attribute per namespace of the method table. */
    method AddNamespaces()
      requires namespaces == map[]
      modifies this`namespaces
      ensures namespaces.Keys == METHODS.Keys
      ensures forall ns :: ns in namespaces ==> Serves(namespaces[ns], ns)
      ensures fresh(namespaces.Values)
    {
      var pending := METHODS.Keys;
      while pending != {}
        invariant pending <= METHODS.Keys
        invariant namespaces.Keys == METHODS.Keys - pending
        invariant forall ns :: ns in namespaces ==> Serves(namespaces[ns], ns)
        invariant fresh(namespaces.Values)
        decreases pending
      {
        var ns :| ns in pending;
        var p := new Proxy(this, "eventbrite." + ns, METHODS[ns]);
        namespaces := namespaces[ns := p];
        pending := pending - {ns};
      }
    }

    /**
     * `_build_query_args`: rewrites every value of `args` in place (a fresh dict
     * when `args` is None), then stamps the credentials, and returns the dict.
     * The values are visited in the dict's own order, which is left open; when a
     * `str()` raises, the values visited so far stay rewritten.
     */
    method BuildQueryArgs(methodName: string, args: MutableDict?, repr: PyObject -> string)
      returns (r: Result<MutableDict, PyError>)
      modifies args
      ensures var before := old(ItemsOf(args)).GetOr(map[]);
        r.Ok? <==> QueryArgs(before, appKey, userKey, repr).Ok?
      ensures r.Ok? ==> r.value.items == QueryArgs(old(ItemsOf(args)).GetOr(map[]), appKey, userKey, repr).value
      ensures r.Ok? && args != null ==> r.value == args
      ensures r.Ok? && args == null ==> fresh(r.value)
      ensures r.Err? ==> r.error == UnicodeEncodeError
      ensures r.Err? && args != null ==>
                && args.items.Keys == old(args.items).Keys
                && forall k :: k in args.items ==>
                     args.items[k] == old(args.items)[k] || Ok(args.items[k]) == QueryValue(old(args.items)[k], repr)
    {
      var d := args;
      if d == null {
        d := new MutableDict(map[]);
      }
      ghost var original := d.items;
      var pending := d.items.Keys;
      while pending != {}
        invariant args != null ==> d == args
        invariant args == null ==> fresh(d)
        invariant pending <= original.Keys
        invariant d.items.Keys == original.Keys
        invariant forall k :: k in pending ==> d.items[k] == original[k]
        invariant forall k :: k in original && k !in pending ==> Ok(d.items[k]) == QueryValue(original[k], repr)
        decreases pending
      {
        var k :| k in pending;
        var rewritten := QueryValue(d.items[k], repr);
        if rewritten.Err? {
          return Err(rewritten.error);
        }
        d.items := d.items[k := rewritten.value];
        pending := pending - {k};
      }
      assert d.items == map k | k in original :: QueryValue(original[k], repr).value;
      d.items := d.items[APP_KEY := appKey][USER_KEY := userKey];
      return Ok(d);
    }

    /** Both credentials survive `str()`, as `urllib.urlencode` applies it to every value. */
    predicate CredentialsEncodable(repr: PyObject -> string) {
      ToStr(appKey, repr).Ok? && ToStr(userKey, repr).Ok?
    }

    /**
     * The URL `__call__` opens: the secure or plain base, the format and the method
     * name, and the url-encoding of `args`, the caller's own argument (rewritten in
     * place by `_build_query_args`), not the dict that call returned.
     */
    function RequestUrl(methodName: string, args: Option<map<string, PyObject>>, secure: bool, format: string,
                        rt: Runtime): (r: Result<string, PyError>)
      ensures args.None? ==> r == Err(TypeError)
      ensures args.Some? && r.Err? ==> r.error == UnicodeEncodeError
      ensures r.Ok? ==> var base := if secure then eventbriteSecureUrl else eventbriteUrl;
        |base| <= |r.value| && r.value[..|base|] == base
    {
      var built :- QueryArgs(args.GetOr(map[]), appKey, userKey, rt.repr);
      var sent := if args.Some? then Some(built) else None;
      GetQueryUrl(if secure then eventbriteSecureUrl else eventbriteUrl, format, methodName, sent, rt.repr, rt.quote)
    }

    /**
     * What `__call__` returns or raises for a method: fetch the URL and parse it,
     * with no format given, so a returned value is never an error envelope.
     */
    function Outcome(methodName: string, args: Option<map<string, PyObject>>, secure: bool, format: string,
                     rt: Runtime): (r: Result<PyObject, PyError>)
      ensures args.None? ==> r == Err(TypeError)
      ensures r.Ok? ==> RequestUrl(methodName, args, secure, format, rt).Ok? && !IsErrorEnvelope(r.value)
    {
      var url :- RequestUrl(methodName, args, secure, format, rt);
      var body :- rt.fetch(RouteOf(proxy), url);
      ParseResponse(body, PyNone, rt.loads)
    }

    /** `__call__`: the client itself when no method is named, otherwise one API call. */
    method Call(methodName: Option<string>, args: MutableDict?, secure: bool, format: string, rt: Runtime)
      returns (r: Result<CallResult, PyError>)
      modifies args
      ensures methodName.None? ==> r == Ok(Itself(this)) && (args != null ==> args.items == old(args.items))
      ensures methodName.Some? ==> r == Lift(Outcome(methodName.value, old(ItemsOf(args)), secure, format, rt))
      ensures methodName.Some? && args != null && QueryArgs(old(args.items), appKey, userKey, rt.repr).Ok? ==>
                args.items == QueryArgs(old(args.items), appKey, userKey, rt.repr).value
      ensures methodName.Some? && args != null && QueryArgs(old(args.items), appKey, userKey, rt.repr).Err? ==>
                && args.items.Keys == old(args.items).Keys
                && forall k :: k in args.items ==>
                     args.items[k] == old(args.items)[k] || Ok(args.items[k]) == QueryValue(old(args.items)[k], rt.repr)
    {
      if methodName.None? {
        return Ok(Itself(this));
      }
      var getArgs :- BuildQueryArgs(methodName.value, args, rt.repr);
      var sent := if args == null then None else Some(args.items);
      var base := if secure then eventbriteSecureUrl else eventbriteUrl;
      var queryUrl :- GetQueryUrl(base, format, methodName.value, sent, rt.repr, rt.quote);
      var response :- rt.fetch(RouteOf(proxy), queryUrl);
      var result :- ParseResponse(response, PyNone, rt.loads);
      return Ok(Decoded(result));
    }

    // -------------------------------------------------------------------------
    // Properties of a call
    // -------------------------------------------------------------------------

    /**
     * Called with a method and no argument dict, the client raises TypeError when it
     * url-encodes None, before anything is sent.
     */
    lemma NoArgumentsRaise(methodName: string, secure: bool, format: string, rt: Runtime)
      ensures RequestUrl(methodName, None, secure, format, rt) == Err(TypeError)
      ensures Outcome(methodName, None, secure, format, rt) == Err(TypeError)
    {
    }

    /**
     * With an argument dict, the URL is built exactly when every value can be
     * rewritten and both credentials survive `str()`; otherwise the call raises
     * UnicodeEncodeError before anything is sent.
     */
    lemma RequestUrlSucceedsIff(methodName: string, args: map<string, PyObject>, secure: bool, format: string,
                                rt: Runtime)
      ensures RequestUrl(methodName, Some(args), secure, format, rt).Ok?
          <==> Rewritable(args, rt.repr) && CredentialsEncodable(rt.repr)
    {
      if Rewritable(args, rt.repr) {
        RewrittenArgsEncodable(args, appKey, userKey, rt.repr);
      }
    }

    /** A non-ASCII unicode credential makes every call with an argument dict raise UnicodeEncodeError. */
    lemma UnicodeCredentialRaises(methodName: string, args: map<string, PyObject>, secure: bool, format: string,
                                  rt: Runtime)
      requires (appKey.PyUnicode? && !IsAscii(appKey.text)) || (userKey.PyUnicode? && !IsAscii(userKey.text))
      ensures Outcome(methodName, Some(args), secure, format, rt) == Err(UnicodeEncodeError)
    {
      RequestUrlSucceedsIff(methodName, args, secure, format, rt);
    }

    /**
     * With an argument dict whose values can be rewritten and credentials that
     * survive `str()`, the URL is the chosen base, the format, '/', the method
     * name, '?' and the encoded arguments with every value rewritten and both
     * credentials added; the pieces can be read back from the URL.
     */
    lemma RequestUrlShape(methodName: string, args: map<string, PyObject>, secure: bool, format: string, rt: Runtime)
      requires Rewritable(args, rt.repr) && CredentialsEncodable(rt.repr)
      ensures var base := if secure then eventbriteSecureUrl else eventbriteUrl;
        var sent := QueryArgs(args, appKey, userKey, rt.repr).value;
        var strs := StrValues(sent, rt.repr);
        && strs.Ok?
        && RequestUrl(methodName, Some(args), secure, format, rt) == Ok(base + format + "/" + methodName + "?" + rt.quote(strs.value))
        && sent.Keys == args.Keys + {APP_KEY, USER_KEY}
        && sent[APP_KEY] == appKey && sent[USER_KEY] == userKey
      ensures '/' !in format && '?' !in methodName ==>
        var base := if secure then eventbriteSecureUrl else eventbriteUrl;
        var sent := QueryArgs(args, appKey, userKey, rt.repr).value;
        ParseQueryUrl(base, RequestUrl(methodName, Some(args), secure, format, rt).value)
          == Some(UrlParts(format, methodName, rt.quote(StrValues(sent, rt.repr).value)))
    {
      var base := if secure then eventbriteSecureUrl else eventbriteUrl;
      var sent := QueryArgs(args, appKey, userKey, rt.repr).value;
      RewrittenArgsEncodable(args, appKey, userKey, rt.repr);
      if '/' !in format && '?' !in methodName {
        QueryUrlRoundTrip(base, format, methodName, sent, rt.repr, rt.quote);
      }
    }

    /**
     * The URL of the call `self('event_get', {'id': 42})`: the id goes out as the
     * text '42' beside the `str()` of both credentials.
     */
    lemma IdRequestUrl(rt: Runtime)
      requires CredentialsEncodable(rt.repr)
      ensures var strs := map["id" := "42", APP_KEY := ToStr(appKey, rt.repr).value, USER_KEY := ToStr(userKey, rt.repr).value];
        RequestUrl("event_get", Some(map["id" := PyInt(42)]), false, RESPONSE_JSON, rt)
          == Ok(eventbriteUrl + "json/event_get?" + rt.quote(strs))
    {
      var sent := map["id" := PyInt(42), APP_KEY := appKey, USER_KEY := userKey];
      var strs := map["id" := "42", APP_KEY := ToStr(appKey, rt.repr).value, USER_KEY := ToStr(userKey, rt.repr).value];
      IdQueryArgs(appKey, userKey, rt.repr);
      assert IntToString(42) == "42" by {
        assert DigitChar(4) == '4' && DigitChar(2) == '2';
        assert Digits(4) == "4";
      }
      assert StrValues(sent, rt.repr) == Ok(strs) by {
        assert sent.Keys == strs.Keys;
        forall k | k in sent
          ensures ToStr(sent[k], rt.repr) == Ok(strs[k])
        {
        }
        var encoded := StrValues(sent, rt.repr).value;
        assert encoded.Keys == strs.Keys;
        forall k | k in encoded
          ensures encoded[k] == strs[k]
        {
          assert ToStr(sent[k], rt.repr) == Ok(encoded[k]);
        }
        assert encoded == strs;
      }
      assert eventbriteUrl + RESPONSE_JSON + "/" + "event_get" + "?" + rt.quote(strs)
          == eventbriteUrl + "json/event_get?" + rt.quote(strs);
    }

    /** A value that `str()` cannot encode makes the call raise UnicodeEncodeError before any request. */
    lemma UnencodableArgumentRaises(methodName: string, args: Option<map<string, PyObject>>, secure: bool, format: string,
                                    rt: Runtime)
      requires !Rewritable(args.GetOr(map[]), rt.repr)
      ensures Outcome(methodName, args, secure, format, rt) == Err(UnicodeEncodeError)
    {
    }

    /**
     * The format only shapes the URL: the body is always decoded as JSON, so two
     * formats whose URLs fetch the same body give the same outcome, and no format
     * is refused as invalid.
     */
    lemma FormatOnlyInUrl(methodName: string, args: Option<map<string, PyObject>>, secure: bool,
                          format1: string, format2: string, rt: Runtime)
      requires RequestUrl(methodName, args, secure, format1, rt).Ok? && RequestUrl(methodName, args, secure, format2, rt).Ok?
      requires rt.fetch(RouteOf(proxy), RequestUrl(methodName, args, secure, format1, rt).value)
            == rt.fetch(RouteOf(proxy), RequestUrl(methodName, args, secure, format2, rt).value)
      ensures Outcome(methodName, args, secure, format1, rt) == Outcome(methodName, args, secure, format2, rt)
      ensures (forall body :: rt.loads(body) != Err(InvalidFormat) && rt.fetch(RouteOf(proxy), body) != Err(InvalidFormat)) ==>
                Outcome(methodName, args, secure, format1, rt) != Err(InvalidFormat)
    {
    }

    /**
     * Once the URL is fetched, the call returns the decoded body exactly when it is
     * not an error envelope, and raises EventBriteError with the envelope's type,
     * message and request arguments when the envelope is complete.
     */
    lemma ResponseOutcome(methodName: string, args: Option<map<string, PyObject>>, secure: bool, format: string,
                          rt: Runtime, body: string)
      requires RequestUrl(methodName, args, secure, format, rt).Ok?
      requires rt.fetch(RouteOf(proxy), RequestUrl(methodName, args, secure, format, rt).value) == Ok(body)
      ensures var r := Outcome(methodName, args, secure, format, rt);
        && (r.Ok? <==> rt.loads(body).Ok? && !IsErrorEnvelope(rt.loads(body).value))
        && (r.Ok? ==> r.value == rt.loads(body).value)
      ensures rt.loads(body).Ok? && CompleteEnvelope(rt.loads(body).value) ==>
        var response := rt.loads(body).value;
        var error := response.entries["error"].entries;
        Outcome(methodName, args, secure, format, rt)
          == Err(ApiError(error["error_type"], error["error_msg"], response.entries["request_args"]))
    {
    }
  }

  /** The query arguments of a call that passes only the integer id 42. */
  lemma IdQueryArgs(appKey: PyObject, userKey: PyObject, repr: PyObject -> string)
    ensures QueryArgs(map["id" := PyInt(42)], appKey, userKey, repr)
         == Ok(map["id" := PyInt(42), APP_KEY := appKey, USER_KEY := userKey])
  {
    var args := map["id" := PyInt(42)];
    assert Rewritable(args, repr) by {
      assert args.Keys == {"id"};
      assert QueryValue(PyInt(42), repr) == Ok(PyInt(42));
    }
    var sent := QueryArgs(args, appKey, userKey, repr).value;
    var expected := map["id" := PyInt(42), APP_KEY := appKey, USER_KEY := userKey];
    assert sent.Keys == expected.Keys;
    assert sent["id"] == QueryValue(PyInt(42), repr).value == PyInt(42);
    assert sent == expected;
  }

  class Proxy {
    const client: EventBrite
    const name: string
    /** The operations of the generated namespace class (`EventsProxy`, ...). */
    const operations: Namespace

    constructor (client: EventBrite, name: string, operations: Namespace)
      ensures this.client == client && this.name == name && this.operations == operations
    {
      this.client := client;
      this.name := name;
      this.operations := operations;
    }

    /**
     * `Proxy.__call__`: the proxy itself when no method is named; otherwise the bare
     * method name and the arguments go to the client, insecure and with the default
     * format.
     */
    method Call(methodName: Option<string>, args: MutableDict?, rt: Runtime) returns (r: Result<CallResult, PyError>)
      modifies args
      ensures methodName.None? ==> r == Ok(Itself(this)) && (args != null ==> args.items == old(args.items))
      ensures methodName.Some? ==> r == Lift(client.Outcome(methodName.value, old(ItemsOf(args)), false, RESPONSE_JSON, rt))
      ensures methodName.Some? && args != null && QueryArgs(old(args.items), client.appKey, client.userKey, rt.repr).Ok? ==>
                args.items == QueryArgs(old(args.items), client.appKey, client.userKey, rt.repr).value
      ensures methodName.Some? && args != null && QueryArgs(old(args.items), client.appKey, client.userKey, rt.repr).Err? ==>
                && args.items.Keys == old(args.items).Keys
                && forall k :: k in args.items ==>
                     args.items[k] == old(args.items)[k] || Ok(args.items[k]) == QueryValue(old(args.items)[k], rt.repr)
    {
      if methodName.None? {
        return Ok(Itself(this));
      }
      r := client.Call(methodName, args, false, RESPONSE_JSON, rt);
    }

    /** What calling the generated operation `op` with these arguments returns or raises. */
    function InvokeOutcome(op: string, positional: seq<PyObject>, keywords: map<string, PyObject>, rt: Runtime)
      : (r: Result<PyObject, PyError>)
      ensures op !in operations ==> r == Err(AttributeError(op))
      ensures op in operations && Bind(operations[op], positional, keywords).Err? ==>
                r == Err(Bind(operations[op], positional, keywords).error)
      ensures r.Ok? ==> op in operations && Bind(operations[op], positional, keywords).Ok? && !IsErrorEnvelope(r.value)
    {
      if op !in operations then Err(AttributeError(op))
      else
        var args :- OperationArgs(operations[op], positional, keywords, rt.dumps);
        client.Outcome(op, Some(args), false, RESPONSE_JSON, rt)
    }

    /**
     * Calls the generated operation `op`: binds the arguments, fills a new `args`
     * dict and passes it to `self(op, args)`.
     */
    method Invoke(op: string, positional: seq<PyObject>, keywords: map<string, PyObject>, rt: Runtime)
      returns (r: Result<PyObject, PyError>)
      ensures r == InvokeOutcome(op, positional, keywords, rt)
    {
      if op !in operations {
        return Err(AttributeError(op));
      }
      var built :- OperationArgs(operations[op], positional, keywords, rt.dumps);
      var args := new MutableDict(built);
      var answer := Call(Some(op), args, rt);
      match answer
      case Ok(Decoded(v)) => r := Ok(v);
      case Err(e) => r := Err(e);
      case Ok(Itself(_)) => assert false; r := Err(TypeError);
    }

    /**
     * `events.event_get(42)` is the client call with the bare name 'event_get', the
     * dict `{'id': 42}`, the plain base URL and the JSON format, so it requests
     * `<eventbrite_url>json/event_get?` followed by the encoding of the id and both
     * credentials, when these survive `str()`.
     */
    lemma EventGetRequest(rt: Runtime)
      requires operations == METHODS["events"]
      ensures InvokeOutcome("event_get", [PyInt(42)], map[], rt)
           == client.Outcome("event_get", Some(map["id" := PyInt(42)]), false, RESPONSE_JSON, rt)
      ensures client.CredentialsEncodable(rt.repr) ==>
        var strs := map["id" := "42", APP_KEY := ToStr(client.appKey, rt.repr).value,
                        USER_KEY := ToStr(client.userKey, rt.repr).value];
        client.RequestUrl("event_get", Some(map["id" := PyInt(42)]), false, RESPONSE_JSON, rt)
          == Ok(client.eventbriteUrl + "json/event_get?" + rt.quote(strs))
    {
      EventGetArguments(rt.dumps);
      if client.CredentialsEncodable(rt.repr) {
        client.IdRequestUrl(rt);
      }
    }
  }
}
