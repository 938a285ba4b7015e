/**
 * Classifying a decoded response: `_check_error` and `_parse_response`. The JSON
 * decoder is a parameter (`loads`); decoded values are `PyObject`s.
 */
module Response {
  import opened Wrappers
  import opened PyObjects

  const RESPONSE_JSON := "json"

  /** The structural error test: a dict that has an 'error' key. */
  predicate IsErrorEnvelope(v: PyObject) {
    v.PyDict? && "error" in v.entries
  }

  /**
   * `_check_error`: a response that is not an error envelope passes through;
   * an envelope raises EventBriteError built from `error['error_type']`,
   * `error['error_msg']` and the response's own 'request_args', read in that
   * order, so a missing piece raises KeyError or TypeError first.
   */
  function CheckError(response: PyObject): (r: Result<PyObject, PyError>)
    ensures r.Ok? <==> !IsErrorEnvelope(response)
    ensures r.Ok? ==> r.value == response
  {
    if IsErrorEnvelope(response) then
      var error := response.entries["error"];
      var code :- Subscript(error, "error_type");
      var msg :- Subscript(error, "error_msg");
      var args :- Subscript(response, "request_args");
      Err(ApiError(code, msg, args))
    else Ok(response)
  }

  /** The envelope of a complete API error: error type, message and request arguments all present. */
  predicate CompleteEnvelope(response: PyObject) {
    && IsErrorEnvelope(response)
    && response.entries["error"].PyDict?
    && "error_type" in response.entries["error"].entries
    && "error_msg" in response.entries["error"].entries
    && "request_args" in response.entries
  }

  /**
   * EventBriteError is raised exactly for a complete envelope, and carries its
   * error type as `code`, its message as `msg` and the response's
   * 'request_args' as `args`.
   */
  lemma ApiErrorIff(response: PyObject)
    ensures CheckError(response).Err? && CheckError(response).error.ApiError? <==> CompleteEnvelope(response)
    ensures CompleteEnvelope(response) ==>
      var error := response.entries["error"].entries;
      CheckError(response) == Err(ApiError(error["error_type"], error["error_msg"], response.entries["request_args"]))
  {
  }

  /** What an incomplete envelope raises instead, in the order the source reads the pieces. */
  lemma IncompleteEnvelope(response: PyObject)
    requires IsErrorEnvelope(response) && !CompleteEnvelope(response)
    ensures var error := response.entries["error"];
      CheckError(response) ==
        if !error.PyDict? then Err(TypeError)
        else if "error_type" !in error.entries then Err(KeyError("error_type"))
        else if "error_msg" !in error.entries then Err(KeyError("error_msg"))
        else Err(KeyError("request_args"))
  {
  }

  /** `not format` picks the default, 'json'; 'json' itself (str or unicode) is the only other accepted value. */
  predicate SelectsJson(format: PyObject) {
    !Truthy(format) || EqualsText(format, RESPONSE_JSON)
  }

  /** `_parse_response`: decode with `loads`, then classify. */
  function ParseResponse(response: string, format: PyObject, loads: string -> Result<PyObject, PyError>)
    : (r: Result<PyObject, PyError>)
    ensures !SelectsJson(format) ==> r == Err(InvalidFormat)
    ensures SelectsJson(format) && loads(response).Err? ==> r == loads(response)
    ensures r.Ok? ==> loads(response) == r && !IsErrorEnvelope(r.value)
  {
    if SelectsJson(format) then
      var result :- loads(response);
      CheckError(result)
    else Err(InvalidFormat)
  }

  /** Any other format raises before the body is decoded: the decoder plays no part. */
  lemma OtherFormatRejectedBeforeDecoding(response: string, format: PyObject,
                                          loads1: string -> Result<PyObject, PyError>,
                                          loads2: string -> Result<PyObject, PyError>)
    requires Truthy(format) && !EqualsText(format, RESPONSE_JSON)
    ensures ParseResponse(response, format, loads1) == Err(InvalidFormat)
    ensures ParseResponse(response, format, loads2) == ParseResponse(response, format, loads1)
  {
  }

  /** An empty or None format means 'json'. */
  lemma EmptyFormatMeansJson(response: string, format: PyObject, loads: string -> Result<PyObject, PyError>)
    requires format == PyNone || format == PyStr("") || format == PyUnicode("")
    ensures ParseResponse(response, format, loads) == ParseResponse(response, PyStr(RESPONSE_JSON), loads)
  {
  }

  /**
   * With the JSON format, the call succeeds exactly when the body decodes to
   * something that is not an error envelope, and then returns the decoded value
   * unchanged; a decoding failure is raised as is.
   */
  lemma JsonOutcome(response: string, format: PyObject, loads: string -> Result<PyObject, PyError>)
    requires SelectsJson(format)
    ensures var r := ParseResponse(response, format, loads);
      && (r.Ok? <==> loads(response).Ok? && !IsErrorEnvelope(loads(response).value))
      && (r.Ok? ==> r.value == loads(response).value)
      && (loads(response).Err? ==> r == loads(response))
  {
  }

  /**
   * The envelope `{"error": {"error_type": "E1", "error_msg": "bad id"}}` with no
   * 'request_args' raises KeyError, not EventBriteError; with 'request_args' it
   * raises EventBriteError('E1', 'bad id', request_args). A plain object such as
   * `{"id": 42, "name": "Conf"}` is returned unchanged.
   */
  lemma EnvelopeExamples(requestArgs: PyObject)
    ensures var error := PyDict(map["error_type" := PyUnicode("E1"), "error_msg" := PyUnicode("bad id")]);
      && CheckError(PyDict(map["error" := error])) == Err(KeyError("request_args"))
      && CheckError(PyDict(map["error" := error, "request_args" := requestArgs]))
           == Err(ApiError(PyUnicode("E1"), PyUnicode("bad id"), requestArgs))
    ensures var ok := PyDict(map["id" := PyInt(42), "name" := PyUnicode("Conf")]);
      CheckError(ok) == Ok(ok)
  {
  }

  // ---------------------------------------------------------------------------
  // EventBriteError.__init__ as written
  // ---------------------------------------------------------------------------

  /** `order` lists each key of `m` exactly once: a possible iteration order of the dict. */
  predicate IsKeyOrder(order: seq<string>, m: map<string, PyObject>) {
    |order| == |m| && (forall k :: k in order ==> k in m) && (forall k :: k in m ==> k in order)
  }

  /**
   * `tuple(v)`, which the exception's `args` attribute stores whatever is assigned
   * to it. A dict gives its keys, in the iteration order `order`; a string its
   * characters; None, a bool or an int is not iterable.
   */
  function TupleOf(v: PyObject, order: seq<string>): (r: Result<seq<PyObject>, PyError>)
    requires v.PyDict? ==> IsKeyOrder(order, v.entries)
    ensures r.Err? <==> v.PyNone? || v.PyBool? || v.PyInt?
    ensures v.PyList? ==> r == Ok(v.elems)
    ensures v.PyTuple? ==> r == Ok(v.items)
    ensures v.PyStr? ==> r.Ok? && |r.value| == |v.bytes| && forall i :: 0 <= i < |v.bytes| ==> r.value[i] == PyStr([v.bytes[i]])
    ensures v.PyUnicode? ==> r.Ok? && |r.value| == |v.text| && forall i :: 0 <= i < |v.text| ==> r.value[i] == PyUnicode([v.text[i]])
    ensures v.PyDict? ==> r.Ok? && |r.value| == |v.entries| && forall i :: 0 <= i < |order| ==> r.value[i] == PyUnicode(order[i])
  {
    match v
    case PyList(es) => Ok(es)
    case PyTuple(es) => Ok(es)
    case PyStr(s) => Ok(seq(|s|, i requires 0 <= i < |s| => PyStr([s[i]])))
    case PyUnicode(u) => Ok(seq(|u|, i requires 0 <= i < |u| => PyUnicode([u[i]])))
    case PyDict(_) => Ok(seq(|order|, i requires 0 <= i < |order| => PyUnicode(order[i])))
    case _ => Err(TypeError)
  }

  /**
   * `_check_error` with EventBriteError's constructor as written: `self.args = args`
   * goes through the exception's `args` setter, which converts the value with
   * `tuple()`.
   */
  function CheckErrorAsWritten(response: PyObject, order: seq<string>): (r: Result<PyObject, PyError>)
    requires (IsErrorEnvelope(response) && "request_args" in response.entries && response.entries["request_args"].PyDict?)
               ==> IsKeyOrder(order, response.entries["request_args"].entries)
    ensures r.Ok? <==> !IsErrorEnvelope(response)
  {
    if IsErrorEnvelope(response) then
      var error := response.entries["error"];
      var code :- Subscript(error, "error_type");
      var msg :- Subscript(error, "error_msg");
      var args :- Subscript(response, "request_args");
      var stored :- TupleOf(args, order);
      Err(ApiError(code, msg, PyTuple(stored)))
    else Ok(response)
  }

  /**
   * As written, for every complete envelope: a dict 'request_args' reaches the
   * raised error as the tuple of its keys, as unicode in iteration order, and its
   * values are lost; a null one raises TypeError instead of EventBriteError.
   */
  lemma RequestArgsKeysAsWritten(response: PyObject, order: seq<string>)
    requires CompleteEnvelope(response)
    requires response.entries["request_args"].PyDict? ==> IsKeyOrder(order, response.entries["request_args"].entries)
    ensures var error := response.entries["error"].entries;
            var requestArgs := response.entries["request_args"];
            var r := CheckErrorAsWritten(response, order);
      requestArgs.PyDict? ==>
        && r.Err? && r.error.ApiError?
        && r.error.code == error["error_type"] && r.error.msg == error["error_msg"]
        && r.error.args.PyTuple? && |r.error.args.items| == |requestArgs.entries|
        && forall i :: 0 <= i < |order| ==> r.error.args.items[i] == PyUnicode(order[i])
    ensures response.entries["request_args"] == PyNone ==> CheckErrorAsWritten(response, order) == Err(TypeError)
  {
    var requestArgs := response.entries["request_args"];
    if requestArgs.PyDict? {
      var stored := TupleOf(requestArgs, order).value;
      assert CheckErrorAsWritten(response, order)
          == Err(ApiError(response.entries["error"].entries["error_type"], response.entries["error"].entries["error_msg"], PyTuple(stored)));
    }
  }

  /**
   * As written, the raised error keeps only the keys of 'request_args' and not
   * their values, and a null 'request_args' raises TypeError instead of
   * EventBriteError. `CheckError` keeps the mapping itself.
   */
  lemma RequestArgsLostAsWritten()
    ensures var error := PyDict(map["error_type" := PyUnicode("E1"), "error_msg" := PyUnicode("bad id")]);
            var requestArgs := PyDict(map["id" := PyInt(42)]);
            var response := PyDict(map["error" := error, "request_args" := requestArgs]);
      && CheckErrorAsWritten(response, ["id"]) == Err(ApiError(PyUnicode("E1"), PyUnicode("bad id"), PyTuple([PyUnicode("id")])))
      && CheckError(response) == Err(ApiError(PyUnicode("E1"), PyUnicode("bad id"), requestArgs))
    ensures var error := PyDict(map["error_type" := PyUnicode("E1"), "error_msg" := PyUnicode("bad id")]);
            var response := PyDict(map["error" := error, "request_args" := PyNone]);
      && CheckErrorAsWritten(response, []) == Err(TypeError)
      && CheckError(response) == Err(ApiError(PyUnicode("E1"), PyUnicode("bad id"), PyNone))
  {
    var requestArgs := PyDict(map["id" := PyInt(42)]);
    assert IsKeyOrder(["id"], requestArgs.entries) by {
      assert requestArgs.entries.Keys == {"id"};
    }
    var stored := TupleOf(requestArgs, ["id"]).value;
    assert |stored| == 1 && stored[0] == PyUnicode("id");
    assert stored == [PyUnicode("id")];
  }
}
