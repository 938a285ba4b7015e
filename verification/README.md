# pyventbrite in Dafny

A model of the request pipeline of pyventbrite, the Python 2 client for the
Event Brite REST API (`pyventbrite/__init__.py`). It covers these parts:

- the `METHODS` table and the namespace operations generated from it (`Catalog`);
- `_build_query_args`, which rewrites the argument dict in place and stamps the
  credentials (`Request`, and `Client.EventBrite.BuildQueryArgs`);
- `get_query_url` and the choice between the plain and secure base URL (`Request`, `Client`);
- `_check_error` and `_parse_response` over a decoded response (`Response`);
- the `EventBrite` constructor's defaults;
- the `method is None` identity rule of `Proxy.__call__` and `EventBrite.__call__` (`Client`).

Python values are the datatype `PyObject`, and the exceptions the code can raise
are `PyError` (`pyobjects.dfy`). Every operation that can raise returns a
`Result`.

Four library functions are parameters: `repr` of a container,
`simplejson.dumps`, `simplejson.loads`, and the quoting and joining done by
`urllib.urlencode`. So is opening a URL. The `str()` that `urllib.urlencode`
applies to every value first is modelled, since it raises on non-ASCII unicode. They are bundled as `Client.Runtime`. Three Python built-ins the pipeline
depends on are modelled concretely in `text.dfy`, each with an inverse proved
against it:

- `str()` of an integer;
- `','.join`;
- `unicode.encode('UTF-8')`, following RFC 3629.

Objects that the source changes in place are classes:

- the argument dict is `Client.MutableDict`;
- the client is `Client.EventBrite`, whose namespace attributes are the map `namespaces`;
- a namespace object is `Client.Proxy`, which holds its generated operations as the table entry they come from.

Generating the operations with `exec` is modelled by an interpreter. `Catalog.Bind`
binds a call to the generated signature the way Python does:

- positionals first, then keywords, then the signature's defaults;
- too many arguments, an unknown keyword or one given twice raise TypeError;
- a required parameter with no value raises the missing-argument TypeError.

`Catalog.BuildArgs` then runs the generated body. `Catalog.Compiles` states the conditions
under which the generated `def` behaves as modelled, and the shipped table satisfies them.

Three behaviours of the code are easy to misread, and the model keeps each:

- `Proxy.__call__` forwards the bare method name (`event_get`) to the client. The name does not carry the namespace prefix.
- `user_key` is always sent, even when it is None. `hasattr(self, 'user_key')` always holds because the constructor always sets it.
- An error envelope without `request_args` raises KeyError from `_check_error`, not EventBriteError (`Response.EnvelopeExamples`).

The source's own quirks are kept:

- `__call__` url-encodes `args`, the caller's dict rewritten in place, and not the dict `_build_query_args` returns. So a call with `args=None` raises TypeError before any request.
- `urllib.urlencode` applies `str()` to every value, the credentials included. A non-ASCII unicode `app_key` or `user_key` therefore makes every call with an argument dict raise UnicodeEncodeError; with `args=None` the call raises TypeError first (`Client.EventBrite.UnicodeCredentialRaises`).
- A bool is sent as `str(b).lower()`, but the bools inside a list keep their capitals: `[True, False]` is sent as `'True,False'`.
- `__call__` never passes its `format` to `_parse_response`, so the body is always decoded as JSON. The format only reaches the URL.

## Model

| member | source | states |
|---|---|---|
| Catalog.MethodsCompile | pyventbrite/__init__.py:61-70 | every operation of the shipped table generates a valid `def` that behaves as modelled: distinct parameter names, none named `self` or `args`, no parameter of a `json`-typed operation named `simplejson`, `isinstance`, `list` or `dict`, and no required parameter after one with a default |
| Catalog.DefaultsOf | pyventbrite/__init__.py:99-100 | the collected defaults are exactly the values of the parameter's `('default', v)` options |
| Catalog.DefaultsOfAppend | pyventbrite/__init__.py:99-100 | the defaults of the options followed by one more option are the earlier defaults, plus that option's value when it is a default |
| Catalog.SignatureDefault | pyventbrite/__init__.py:99-112 | a parameter has a signature default iff it is optional or has a `('default', v)` option; for an optional or list parameter that default is None, for any other it is one of its default values |
| Catalog.FillListDefault | pyventbrite/__init__.py:101-103 | the `if name is None: name = v` lines of a list parameter: a given value is kept, otherwise the first non-None default wins, and the result is None only when every default is None |
| Catalog.BindOne | pyventbrite/__init__.py:99-112 | a parameter takes its positional argument if there is one, else its keyword argument, else its signature default; with none of them it raises the missing-argument TypeError naming that parameter |
| Catalog.BindFrom | pyventbrite/__init__.py:117-122 | binding succeeds iff every parameter gets a value, and then yields each parameter's value in order; on failure the error is one parameter's error |
| Catalog.Bind | pyventbrite/__init__.py:117-122 | more positionals than parameters raise TypeError; on success there is one value per parameter, each the one `BindOne` gives; a failure is the argument TypeError or one parameter's missing-argument error |
| Catalog.OperationArgs | pyventbrite/__init__.py:117-124 | a generated operation builds its `args` iff its arguments bind, raises the binding error otherwise, and stores at most one entry per parameter |
| Catalog.BindSucceedsIff | pyventbrite/__init__.py:117-122 | a call binds iff it has no more positionals than parameters, every keyword names a parameter not filled positionally, and every parameter without a default is supplied |
| Catalog.MissingRequiredFails | pyventbrite/__init__.py:115 | omitting a parameter that has no default raises; when every keyword is acceptable, the error is the missing-argument TypeError naming a parameter without a default |
| Catalog.BodyValue | pyventbrite/__init__.py:101-109 | a list parameter's value is filled from its defaults; only a `json`-typed parameter's value can turn into JSON text; any other value is kept |
| Catalog.Assign | pyventbrite/__init__.py:111-115 | the value is stored under the parameter's name unless the parameter is optional and the value None; every other key is left as it was |
| Catalog.BuildArgs | pyventbrite/__init__.py:94-115 | the generated body stores at most one entry per parameter |
| Catalog.BuildArgsKeys | pyventbrite/__init__.py:94-115 | the generated body stores nothing in `args` but parameter names |
| Catalog.BuildArgsEntries | pyventbrite/__init__.py:107-115 | with distinct names, the generated body puts each parameter under its own name, except an optional one whose value is None, which it leaves out |
| Catalog.OmittedBindsDefault | pyventbrite/__init__.py:102-112 | a parameter the call leaves out is bound to its signature default |
| Catalog.PlacedDefault | pyventbrite/__init__.py:99-115 | how a defaulted parameter lands in `args`: a plain default is used (the last one), a list default is filled in the body, and 'optional' drops a plain default |
| Catalog.OmittedParameter | pyventbrite/__init__.py:99-117 | for an omitted parameter of a valid signature: a non-optional one takes its default, a list one the first non-None default, and an optional one is left out unless a list default fills it |
| Catalog.JsonDumpedOnlyForContainers | pyventbrite/__init__.py:107-109 | a `json`-typed value is replaced by its JSON text exactly when it is a list or a dict |
| Catalog.EventGetArguments | pyventbrite/__init__.py:63-65 | `event_get(42)` and `event_get(id=42)` build `{'id': 42}`; `event_get()` raises the missing-argument TypeError; two positionals raise TypeError |
| Text.Digits | pyventbrite/__init__.py:208 | the decimal digits of a natural number, with no leading zero |
| Text.DigitsRoundTrip | pyventbrite/__init__.py:208 | the digits read back as the number |
| Text.IntToString | pyventbrite/__init__.py:208 | `str()` of an int is non-empty and made of digits and a sign |
| Text.IntToStringRoundTrip | pyventbrite/__init__.py:208 | parsing `str(i)` gives `i` back |
| Text.IntToStringInjective | pyventbrite/__init__.py:208 | distinct integers render differently |
| Text.Join | pyventbrite/__init__.py:208 | `','.join` of no part is empty and of one part is that part |
| Text.Split | pyventbrite/__init__.py:208 | the partner of join: at least one piece, none holding the separator |
| Text.SplitNoSeparator | pyventbrite/__init__.py:208 | a string without the separator splits into itself |
| Text.SplitFirstPiece | pyventbrite/__init__.py:208 | splitting peels off the text before the first separator |
| Text.SplitJoin | pyventbrite/__init__.py:208 | splitting a join gives the parts back when no part holds the separator |
| Text.AsciiEncode | pyventbrite/__init__.py:208 | the ASCII encoding `str()` applies to unicode succeeds iff the text is ASCII, and then gives the same characters as a byte string |
| Text.Lower | pyventbrite/__init__.py:212 | `.lower()` keeps the length, turns every capital letter into its small letter and leaves every other character |
| Text.Utf8Char | pyventbrite/__init__.py:210 | one character encodes to one to four bytes, one byte exactly below U+0080 |
| Text.Utf8Encode | pyventbrite/__init__.py:210 | UTF-8 encoding yields bytes, at least one per character |
| Text.DecodeFirst | pyventbrite/__init__.py:210 | the strict decoder of one UTF-8 sequence consumes between one byte and the whole input |
| Text.Utf8CharDecodes | pyventbrite/__init__.py:210 | the encoding of a character decodes to that character, consuming exactly its bytes |
| Text.Utf8RoundTrip | pyventbrite/__init__.py:210 | decoding the UTF-8 encoding of any text gives the text back |
| Text.Utf8OfAscii | pyventbrite/__init__.py:210 | ASCII text is its own UTF-8 encoding |
| PyObjects.Subscript | pyventbrite/__init__.py:198 | `v[key]` succeeds iff `v` is a dict holding `key`; otherwise KeyError for a dict and TypeError for anything else |
| PyObjects.ToStr | pyventbrite/__init__.py:208 | `str()` fails iff the value is non-ASCII unicode (UnicodeEncodeError); an int renders as its decimal, a byte string and ASCII unicode as their text, a bool as `True`/`False`, None as `None`, a container as its `repr` |
| Request.StrAll | pyventbrite/__init__.py:208 | `str()` of every element, in order, succeeding iff each one does |
| Request.QueryValue | pyventbrite/__init__.py:207-212 | the per-value rewrite raises only UnicodeEncodeError |
| Request.QueryArgs | pyventbrite/__init__.py:201-218 | succeeds iff every value can be rewritten; then the keys are the caller's plus `app_key` and `user_key`, the two credentials overwrite any caller value, and every other value is rewritten |
| Request.ListIsCommaJoined | pyventbrite/__init__.py:207-208 | a list whose elements all survive `str()` becomes one byte string; when no element's `str()` contains a comma, its comma-separated pieces are those `str()`s, in order |
| Request.IntListRoundTrip | pyventbrite/__init__.py:208 | a non-empty list of ints can be read back from its rendering |
| Request.ListOfOneTwoThree | pyventbrite/__init__.py:206-208 | `[1, 2, 3]` becomes `'1,2,3'` and an empty list becomes `''` |
| Request.BoolRendering | pyventbrite/__init__.py:211-212 | a bool becomes `str(b).lower()`, exactly `'true'` or `'false'` |
| Request.LowerBoolNames | pyventbrite/__init__.py:212 | `str(True).lower()` is `'true'` and `str(False).lower()` is `'false'` |
| Request.BoolsInListKeepCapitals | pyventbrite/__init__.py:207-212 | `[True, False]` is sent as `'True,False'`: only a bool at the top level is lower-cased |
| Request.UnicodeIsUtf8 | pyventbrite/__init__.py:209-210 | unicode always becomes a byte string, which decodes back to the text |
| Request.UnchangedIff | pyventbrite/__init__.py:206-212 | a value is left as it is iff it is neither a list, unicode nor a bool |
| Request.RewriteFailsIff | pyventbrite/__init__.py:207-208 | the rewrite raises iff the value is a list holding non-ASCII unicode |
| Request.RewriteIsIdempotent | pyventbrite/__init__.py:206-212 | a rewritten value is left unchanged by a second rewrite |
| Request.GetQueryUrl | pyventbrite/__init__.py:283 | fails iff the arguments are None (TypeError) or some value cannot go through `str()` (UnicodeEncodeError); a URL starts with the base |
| Request.StrValues | pyventbrite/__init__.py:283 | the `str()` of every value, under the same keys, succeeding iff every value's `str()` does; otherwise UnicodeEncodeError |
| Request.UrlEncode | pyventbrite/__init__.py:283 | `urllib.urlencode(None)` raises TypeError; a dict is encoded iff every value survives `str()`, as the quoting of those strings, and raises UnicodeEncodeError otherwise |
| Request.RewrittenArgsEncodable | pyventbrite/__init__.py:201-218 | after a successful rewrite, the dict url-encodes iff neither credential is non-ASCII unicode |
| Request.ComposedUrlParses | pyventbrite/__init__.py:283 | base, format, '/', method, '?', query read back as format, method and query when the format has no '/' and the method no '?' |
| Request.QueryUrlRoundTrip | pyventbrite/__init__.py:277-283 | when every value survives `str()`, the URL is built, and the format, method and encoded query read back from it |
| Response.CheckError | pyventbrite/__init__.py:195-198 | a response passes through unchanged iff it is not a dict with an 'error' key |
| Response.ParseResponse | pyventbrite/__init__.py:221-233 | a format other than JSON raises the invalid-format error; a decoding error propagates; a returned value is the decoded body and is not an error envelope |
| Response.ApiErrorIff | pyventbrite/__init__.py:197-198 | EventBriteError is raised iff the envelope is complete, with `error_type`, `error_msg` and the response's `request_args` |
| Response.IncompleteEnvelope | pyventbrite/__init__.py:198 | an incomplete envelope raises TypeError or KeyError, for the first missing piece in the order the source reads them |
| Response.OtherFormatRejectedBeforeDecoding | pyventbrite/__init__.py:227-231 | any non-empty format other than 'json' raises the invalid-format error without decoding |
| Response.EmptyFormatMeansJson | pyventbrite/__init__.py:224-225 | a None or empty format behaves as 'json' |
| Response.JsonOutcome | pyventbrite/__init__.py:227-233 | with JSON, the result is the decoded value, unchanged, iff it decodes and is not an error envelope; a decoding error propagates |
| Response.EnvelopeExamples | pyventbrite/__init__.py:197-198 | the envelope without `request_args` raises KeyError, with it EventBriteError, and a plain object is returned unchanged |
| Response.TupleOf | pyventbrite/__init__.py:144 | `tuple()` fails iff the value is None, a bool or an int; a list or tuple gives its elements, a str or unicode its one-character strings, and a dict its keys as unicode in iteration order |
| Response.CheckErrorAsWritten | pyventbrite/__init__.py:141-144 | as written, the error check still raises iff the response is an error envelope |
| Response.RequestArgsKeysAsWritten | pyventbrite/__init__.py:141-144 | as written, for every complete envelope, a dict `request_args` reaches the raised error as the tuple of its keys in iteration order, with the error type and message kept, and a null one raises TypeError |
| Response.RequestArgsLostAsWritten | pyventbrite/__init__.py:144 | as written, `request_args` `{'id': 42}` is stored as `('id',)` and a null one raises TypeError; `CheckError` keeps the mapping |
| Client.RouteOf | pyventbrite/__init__.py:263-268 | the request goes through the proxy handler iff the proxy setting is truthy |
| Client.EventBrite.constructor | pyventbrite/__init__.py:171-188 | stores the keys, proxy and internal setting, sets the session fields to None, and defaults each base URL to the module constant when None |
| Client.EventBrite.AddNamespaces | pyventbrite/__init__.py:190-191 | one new proxy per namespace of the table, named `eventbrite.<ns>`, holding that namespace's operations and this client |
| Client.EventBrite.BuildQueryArgs | pyventbrite/__init__.py:201-218 | succeeds iff `QueryArgs` does, and then leaves exactly `QueryArgs` of the old contents in the caller's dict (a fresh one for None) and returns it; on UnicodeEncodeError each value is its old or rewritten self |
| Client.EventBrite.Call | pyventbrite/__init__.py:247-273 | with no method, returns the client itself and changes nothing; otherwise returns `Outcome` of the caller's arguments and leaves the rewritten arguments in the caller's dict; when the rewrite raises, each value is its old or its rewritten self |
| Client.EventBrite.RequestUrl | pyventbrite/__init__.py:256-261 | with `args=None`, TypeError; with a dict, only UnicodeEncodeError can be raised; a URL starts with the secure base when `secure`, else with the plain one |
| Client.EventBrite.Outcome | pyventbrite/__init__.py:256-273 | `args=None` raises TypeError; a returned value came from a URL that was built and is not an error envelope |
| Client.EventBrite.NoArgumentsRaise | pyventbrite/__init__.py:257-261 | a call with `args=None` raises TypeError from url-encoding None, before anything is fetched |
| Client.EventBrite.RequestUrlSucceedsIff | pyventbrite/__init__.py:256-261 | with a dict, the URL is built iff every value can be rewritten and neither credential is non-ASCII unicode |
| Client.EventBrite.UnicodeCredentialRaises | pyventbrite/__init__.py:214-216 | a non-ASCII unicode `app_key` or `user_key` makes every call with a dict raise UnicodeEncodeError |
| Client.EventBrite.RequestUrlShape | pyventbrite/__init__.py:258-261 | when the values can be rewritten and the credentials survive `str()`, the URL starts with the secure base when `secure`, else with the plain one, and holds the rewritten arguments with both credentials; its pieces read back |
| Client.EventBrite.IdRequestUrl | pyventbrite/__init__.py:259-261 | with credentials that survive `str()`, `self('event_get', {'id': 42})` requests `<eventbrite_url>json/event_get?` with the id sent as `'42'` beside both credentials |
| Client.EventBrite.UnencodableArgumentRaises | pyventbrite/__init__.py:257 | a value `str()` cannot encode raises UnicodeEncodeError before any request |
| Client.EventBrite.FormatOnlyInUrl | pyventbrite/__init__.py:273 | the format only changes the URL: two formats fetching the same body give the same outcome, and no format is rejected as invalid |
| Client.EventBrite.ResponseOutcome | pyventbrite/__init__.py:273 | after a fetch, the call returns the decoded body iff it is not an error envelope, and raises the corrected EventBriteError, carrying `request_args` as given, for a complete envelope |
| Client.IdQueryArgs | pyventbrite/__init__.py:214-216 | `{'id': 42}` becomes `{'id': 42, 'app_key': …, 'user_key': …}` |
| Client.MutableDict.constructor | pyventbrite/__init__.py:203-204 | a new dict holding exactly the given items |
| Client.Proxy.constructor | pyventbrite/__init__.py:75-77 | stores the client and the namespace name |
| Client.Proxy.Call | pyventbrite/__init__.py:79-84 | with no method, returns the proxy itself and changes nothing; otherwise makes the client's insecure JSON call with the bare method name and leaves the caller's dict as that call does |
| Client.Proxy.InvokeOutcome | pyventbrite/__init__.py:117-124 | an undefined operation raises AttributeError; a binding error is raised as is; a returned value means the arguments bound and it is not an error envelope |
| Client.Proxy.Invoke | pyventbrite/__init__.py:122-124 | an undefined operation raises AttributeError; a defined one binds its arguments, builds `args` and returns the client's outcome for the bare name |
| Client.Proxy.EventGetRequest | pyventbrite/__init__.py:84 | `events.event_get(42)` is the client call for `event_get` (not `eventbrite.events.event_get`) with `{'id': 42}`, fetching `<eventbrite_url>json/event_get?…` when the credentials survive `str()` |

## Left out

- Network I/O is a parameter of `Client.Runtime`, with no behaviour assumed. This covers `urlread`, `urllib2.urlopen`, `ProxyHandler` and `build_opener`. The model records only whether a request goes through the proxy.
- The two `print` lines in `__call__` are not modelled. Output has no effect on the result.
- `unicode_urlencode` is not modelled. Its only call site is commented out.
- The internals of `simplejson.loads`/`dumps`, container `repr` and the percent-quoting and '&'-joining of `urllib.urlencode` are not modelled. They are opaque function parameters.
- `Request.UrlEncode`: `str()` of a key is not modelled. The generated operations build dicts with byte-string keys. A caller's own dict with a non-ASCII unicode key, which `urllib.urlencode` would reject with UnicodeEncodeError, lies outside the model.
- `Catalog.BodyValue`: `simplejson.dumps` is total here. Its failure on a byte string that is not UTF-8, or on a value JSON cannot express, is not modelled.
- `Catalog.Compiles`: a parameter named `args`, or a parameter of a `json`-typed operation named `simplejson`, `isinstance`, `list` or `dict`, would shadow a name the generated body uses. Such tables are outside `Catalog.ValidSignature`, and their behaviour is not modelled. The shipped table has none.
- `Client.EventBrite.Call`: the call uses the corrected `Response.CheckError`, so an EventBriteError keeps `request_args` as the response gave it. The `tuple()` that the exception's `args` setter applies is modelled only in `Response.CheckErrorAsWritten` (see Findings).
- `Client.EventBrite.ResponseOutcome`: it states the corrected EventBriteError. As written, the source stores `tuple(request_args)` instead and raises TypeError for a null `request_args` (`Response.RequestArgsKeysAsWritten`).
- Floats, longs beyond their `str()` rendering, and other Python types are not among the `PyObject` values. Dict keys are strings.
- `exec`, `eval`, `type()` and `globals()` are not modelled. They are replaced by the table interpreter, and the text of the generated `def` is never assembled. Class names (`EventsProxy`), the docstring and identifier validity of names are not modelled.
- `add_session_args` of `Proxy.__call__` is not modelled. It is accepted and ignored.
- `EventBriteError.__str__` is not modelled. It only formats.
- `Client.EventBrite.Call`: the method name, the format and the base URLs are Dafny strings, so the `'%s'` formatting of other objects is not modelled.
- `Client.EventBrite.BuildQueryArgs`: the order in which `items()` visits the keys is left open. On UnicodeEncodeError, the contract says only that each value is either its old or its rewritten self, and not which ones were reached.
- PyError does not model Python's exception message texts. It distinguishes the missing-argument TypeError from the other TypeErrors, and UnicodeEncodeError carries no position.
- `Text.Utf8Encode` works on Unicode scalar values. A narrow Python 2 build stores text in UTF-16 code units, and lone surrogates are not modelled.

## Findings

| source | as written | input that shows it | evidently intended | confidence | as-written member | corrected member |
|---|---|---|---|---|---|---|
| pyventbrite/__init__.py:144 | `self.args = args` goes through the `args` setter of Python's base exception, which stores `tuple(args)` | a response `{"error": {"error_type": "E1", "error_msg": "bad id"}, "request_args": {"id": 42}}` raises an error whose `args` is `('id',)`; with `"request_args": null` the constructor raises TypeError instead of EventBriteError | the error keeps the request arguments as given | medium, not executed | Response.RequestArgsLostAsWritten | Response.ApiErrorIff |
