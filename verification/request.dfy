/**
 * The request builder's specification: how `_build_query_args` rewrites each
 * value of the argument dict and stamps the credentials, and the URL
 * `get_query_url` builds from the result.
 */
module Request {
  import opened Wrappers
  import opened Text
  import opened PyObjects

  const APP_KEY := "app_key"
  const USER_KEY := "user_key"

  /** `[str(a) for a in elems]`, raising what the first failing `str()` raises. */
  function StrAll(elems: seq<PyObject>, repr: PyObject -> string): (r: Result<seq<string>, PyError>)
    ensures r.Ok? <==> forall i :: 0 <= i < |elems| ==> ToStr(elems[i], repr).Ok?
    ensures r.Ok? ==> |r.value| == |elems|
    ensures r.Ok? ==> forall i :: 0 <= i < |elems| ==> ToStr(elems[i], repr) == Ok(r.value[i])
    ensures r.Err? ==> r.error == UnicodeEncodeError
  {
    if elems == [] then Ok([])
    else
      var s :- ToStr(elems[0], repr);
      var rest :- StrAll(elems[1..], repr);
      Ok([s] + rest)
  }

  /**
   * What one pass of the loop in `_build_query_args` stores for a value: a list
   * becomes the comma-joined `str()` of its elements, unicode its UTF-8 bytes, a
   * bool its lower-cased `str()`, 'true' or 'false'; anything else stays as it is.
   */
  function QueryValue(v: PyObject, repr: PyObject -> string): (r: Result<PyObject, PyError>)
    ensures r.Err? ==> r.error == UnicodeEncodeError
  {
    match v
    case PyList(elems) =>
      var parts :- StrAll(elems, repr);
      Ok(PyStr(Join(',', parts)))
    case PyUnicode(u) => Ok(PyStr(Utf8Encode(u)))
    case PyBool(_) => Ok(PyStr(Lower(ToStr(v, repr).value)))
    case _ => Ok(v)
  }

  /** No value of the dict makes the loop raise. */
  predicate Rewritable(args: map<string, PyObject>, repr: PyObject -> string) {
    forall k :: k in args ==> QueryValue(args[k], repr).Ok?
  }

  /**
   * The dict `_build_query_args` leaves behind when it returns normally: every
   * value rewritten, then `app_key` and `user_key` stamped over whatever the caller
   * put there. `user_key` is stamped even when it is None, because the constructor
   * always sets the attribute that `hasattr` tests.
   */
  function QueryArgs(args: map<string, PyObject>, appKey: PyObject, userKey: PyObject,
                     repr: PyObject -> string): (r: Result<map<string, PyObject>, PyError>)
    ensures r.Ok? <==> Rewritable(args, repr)
    ensures r.Err? ==> r.error == UnicodeEncodeError
    ensures r.Ok? ==> r.value.Keys == args.Keys + {APP_KEY, USER_KEY}
    ensures r.Ok? ==> r.value[APP_KEY] == appKey && r.value[USER_KEY] == userKey
    ensures r.Ok? ==> forall k :: k in args && k != APP_KEY && k != USER_KEY ==>
                        r.value[k] == QueryValue(args[k], repr).value
  {
    if Rewritable(args, repr) then
      Ok((map k | k in args :: QueryValue(args[k], repr).value)[APP_KEY := appKey][USER_KEY := userKey])
    else Err(UnicodeEncodeError)
  }

  // ---------------------------------------------------------------------------
  // Properties of the per-value rewrite
  // ---------------------------------------------------------------------------

  /** A list becomes one byte string: its elements' `str()`, in order, joined by commas. */
  lemma ListIsCommaJoined(elems: seq<PyObject>, repr: PyObject -> string)
    requires forall i :: 0 <= i < |elems| ==> ToStr(elems[i], repr).Ok?
    ensures QueryValue(PyList(elems), repr).Ok?
    ensures var s := QueryValue(PyList(elems), repr).value;
      && s.PyStr?
      && (elems == [] ==> s.bytes == "")
      && (elems != [] && (forall i :: 0 <= i < |elems| ==> ',' !in ToStr(elems[i], repr).value) ==>
            |Split(',', s.bytes)| == |elems|
            && forall i :: 0 <= i < |elems| ==> ToStr(elems[i], repr) == Ok(Split(',', s.bytes)[i]))
  {
    var parts := StrAll(elems, repr).value;
    if elems != [] && (forall i :: 0 <= i < |elems| ==> ',' !in ToStr(elems[i], repr).value) {
      SplitJoin(',', parts);
    }
  }

  /** A list of integers is sent as their decimal renderings, and each can be read back. */
  lemma IntListRoundTrip(ns: seq<int>, repr: PyObject -> string)
    requires |ns| >= 1
    ensures var s := QueryValue(PyList(seq(|ns|, i requires 0 <= i < |ns| => PyInt(ns[i]))), repr);
      && s.Ok? && s.value.PyStr?
      && |Split(',', s.value.bytes)| == |ns|
      && forall i :: 0 <= i < |ns| ==> ParseInt(Split(',', s.value.bytes)[i]) == Some(ns[i])
  {
    var elems := seq(|ns|, i requires 0 <= i < |ns| => PyInt(ns[i]));
    forall i | 0 <= i < |elems|
      ensures ToStr(elems[i], repr) == Ok(IntToString(ns[i])) && ',' !in IntToString(ns[i])
    {
    }
    ListIsCommaJoined(elems, repr);
    var parts := Split(',', QueryValue(PyList(elems), repr).value.bytes);
    forall i | 0 <= i < |ns|
      ensures ParseInt(parts[i]) == Some(ns[i])
    {
      assert parts[i] == IntToString(ns[i]);
      IntToStringRoundTrip(ns[i]);
    }
  }

  lemma ListOfOneTwoThree(repr: PyObject -> string)
    ensures QueryValue(PyList([PyInt(1), PyInt(2), PyInt(3)]), repr) == Ok(PyStr("1,2,3"))
    ensures QueryValue(PyList([]), repr) == Ok(PyStr(""))
  {
    assert IntToString(1) == "1" && IntToString(2) == "2" && IntToString(3) == "3" by {
      assert DigitChar(1) == '1' && DigitChar(2) == '2' && DigitChar(3) == '3';
    }
    var one, two, three := PyInt(1), PyInt(2), PyInt(3);
    assert ToStr(one, repr) == Ok("1") && ToStr(two, repr) == Ok("2") && ToStr(three, repr) == Ok("3");
    assert StrAll([three], repr) == Ok(["3"]) by {
      assert [three][1..] == [];
      assert StrAll([], repr) == Ok([]);
      assert ["3"] + [] == ["3"];
    }
    assert StrAll([two, three], repr) == Ok(["2", "3"]) by {
      assert [two, three][1..] == [three];
      assert ["2"] + ["3"] == ["2", "3"];
    }
    assert StrAll([one, two, three], repr) == Ok(["1", "2", "3"]) by {
      assert [one, two, three][1..] == [two, three];
      assert ["1"] + ["2", "3"] == ["1", "2", "3"];
    }
    assert Join(',', ["1", "2", "3"]) == "1,2,3" by {
      assert ["1", "2", "3"][1..] == ["2", "3"];
      assert ["2", "3"][1..] == ["3"];
    }
  }

  /** `str(True).lower()` and `str(False).lower()`. */
  lemma LowerBoolNames()
    ensures Lower("True") == "true" && Lower("False") == "false"
  {
    var t := Lower("True");
    assert t[0] == 't' && t[1] == 'r' && t[2] == 'u' && t[3] == 'e';
    assert t == "true";
    var f := Lower("False");
    assert f[0] == 'f' && f[1] == 'a' && f[2] == 'l' && f[3] == 's' && f[4] == 'e';
    assert f == "false";
  }

  /** Booleans are sent exactly as 'true' or 'false': `str(b).lower()`. */
  lemma BoolRendering(b: bool, repr: PyObject -> string)
    ensures QueryValue(PyBool(b), repr) == Ok(PyStr(if b then "true" else "false"))
  {
    LowerBoolNames();
  }

  /**
   * Only a bool at the top level is lower-cased: the bools of a list are joined as
   * `str()` gives them, so `[True, False]` is sent as 'True,False'.
   */
  lemma BoolsInListKeepCapitals(repr: PyObject -> string)
    ensures QueryValue(PyList([PyBool(true), PyBool(false)]), repr) == Ok(PyStr("True,False"))
  {
    var t, f := PyBool(true), PyBool(false);
    assert StrAll([f], repr) == Ok(["False"]) by {
      assert [f][1..] == [];
      assert StrAll([], repr) == Ok([]);
      assert ["False"] + [] == ["False"];
    }
    assert StrAll([t, f], repr) == Ok(["True", "False"]) by {
      assert [t, f][1..] == [f];
      assert ["True"] + ["False"] == ["True", "False"];
    }
    assert Join(',', ["True", "False"]) == "True,False" by {
      assert ["True", "False"][1..] == ["False"];
    }
  }

  /** Unicode text is sent as bytes that decode back to the same text. */
  lemma UnicodeIsUtf8(u: string, repr: PyObject -> string)
    ensures QueryValue(PyUnicode(u), repr).Ok?
    ensures var s := QueryValue(PyUnicode(u), repr).value;
      s.PyStr? && IsBytes(s.bytes) && Utf8Decode(s.bytes) == Some(u)
  {
    Utf8RoundTrip(u);
  }

  /** A value is left as it is exactly when it is neither a list, nor unicode, nor a bool. */
  lemma UnchangedIff(v: PyObject, repr: PyObject -> string)
    ensures QueryValue(v, repr) == Ok(v) <==> !(v.PyList? || v.PyUnicode? || v.PyBool?)
  {
  }

  /** The rewrite fails only for a list holding non-ASCII unicode, whose `str()` raises. */
  lemma RewriteFailsIff(v: PyObject, repr: PyObject -> string)
    ensures QueryValue(v, repr).Err? <==>
      v.PyList? && exists i :: 0 <= i < |v.elems| && v.elems[i].PyUnicode? && !IsAscii(v.elems[i].text)
  {
  }

  /** After the rewrite no list, unicode or bool is left, so a second pass changes nothing. */
  lemma RewriteIsIdempotent(v: PyObject, repr: PyObject -> string)
    requires QueryValue(v, repr).Ok?
    ensures var w := QueryValue(v, repr).value;
      !(w.PyList? || w.PyUnicode? || w.PyBool?) && QueryValue(w, repr) == Ok(w)
  {
  }

  // ---------------------------------------------------------------------------
  // The query URL
  // ---------------------------------------------------------------------------

  /** `str()` of every value of a dict, which `urllib.urlencode` applies before quoting. */
  function StrValues(args: map<string, PyObject>, repr: PyObject -> string): (r: Result<map<string, string>, PyError>)
    ensures r.Ok? <==> forall k :: k in args ==> ToStr(args[k], repr).Ok?
    ensures r.Ok? ==> r.value.Keys == args.Keys && forall k :: k in args ==> ToStr(args[k], repr) == Ok(r.value[k])
    ensures r.Err? ==> r.error == UnicodeEncodeError
  {
    if forall k :: k in args ==> ToStr(args[k], repr).Ok? then Ok(map k | k in args :: ToStr(args[k], repr).value)
    else Err(UnicodeEncodeError)
  }

  /**
   * `urllib.urlencode(args)`: None raises TypeError; a dict has every value
   * converted with `str()`, which raises for non-ASCII unicode, and the pairs are
   * then quoted and joined by `quote`, whose text is left open.
   */
  function UrlEncode(getArgs: Option<map<string, PyObject>>, repr: PyObject -> string,
                     quote: map<string, string> -> string): (r: Result<string, PyError>)
    ensures getArgs.None? ==> r == Err(TypeError)
    ensures getArgs.Some? ==> (r.Ok? <==> StrValues(getArgs.value, repr).Ok?)
    ensures getArgs.Some? && r.Ok? ==> r.value == quote(StrValues(getArgs.value, repr).value)
    ensures getArgs.Some? && r.Err? ==> r.error == UnicodeEncodeError
  {
    match getArgs
    case None => Err(TypeError)
    case Some(args) =>
      var strs :- StrValues(args, repr);
      Ok(quote(strs))
  }

  /** `'%s%s/%s?%s' % (url, format, method, urllib.urlencode(get_args))`. */
  function GetQueryUrl(url: string, format: string, methodName: string, getArgs: Option<map<string, PyObject>>,
                       repr: PyObject -> string, quote: map<string, string> -> string): (r: Result<string, PyError>)
    ensures r.Err? <==> getArgs.None? || StrValues(getArgs.value, repr).Err?
    ensures r.Err? ==> r.error == (if getArgs.None? then TypeError else UnicodeEncodeError)
    ensures r.Ok? ==> |url| <= |r.value| && r.value[..|url|] == url
  {
    var query :- UrlEncode(getArgs, repr, quote);
    Ok(url + format + "/" + methodName + "?" + query)
  }

  /**
   * After a successful rewrite only the two credentials can still hold unicode, so
   * the dict url-encodes exactly when neither credential is non-ASCII unicode.
   */
  lemma RewrittenArgsEncodable(args: map<string, PyObject>, appKey: PyObject, userKey: PyObject, repr: PyObject -> string)
    requires Rewritable(args, repr)
    ensures StrValues(QueryArgs(args, appKey, userKey, repr).value, repr).Ok?
        <==> ToStr(appKey, repr).Ok? && ToStr(userKey, repr).Ok?
  {
    var sent := QueryArgs(args, appKey, userKey, repr).value;
    if ToStr(appKey, repr).Ok? && ToStr(userKey, repr).Ok? {
      forall k | k in sent
        ensures ToStr(sent[k], repr).Ok?
      {
        if k != APP_KEY && k != USER_KEY {
          RewriteIsIdempotent(args[k], repr);
        }
      }
    } else {
      assert APP_KEY in sent && USER_KEY in sent;
    }
  }

  datatype UrlParts = UrlParts(format: string, methodName: string, query: string)

  /** The position of the first `c` in `s`, or `|s|` when there is none. */
  function IndexOf(s: string, c: char): (i: nat)
    ensures i <= |s|
    ensures i < |s| ==> s[i] == c
    ensures forall j :: 0 <= j < i ==> s[j] != c
  {
    if s == [] then 0 else if s[0] == c then 0 else 1 + IndexOf(s[1..], c)
  }

  /** Reads a query URL under `base` back into its format, method and query string. */
  function ParseQueryUrl(base: string, u: string): Option<UrlParts> {
    if |u| < |base| || u[..|base|] != base then None
    else
      var rest := u[|base|..];
      var slash := IndexOf(rest, '/');
      if slash == |rest| then None
      else
        var after := rest[slash + 1..];
        var q := IndexOf(after, '?');
        if q == |after| then None
        else Some(UrlParts(rest[..slash], after[..q], after[q + 1..]))
  }

  lemma IndexOfFirst(x: string, c: char, y: string)
    requires c !in x
    ensures IndexOf(x + [c] + y, c) == |x|
  {
    var s := x + [c] + y;
    assert s[|x|] == c;
    assert forall j :: 0 <= j < |x| ==> s[j] == x[j];
  }

  /** The pieces of a query URL can be read back when the format has no '/' and the method no '?'. */
  lemma ComposedUrlParses(url: string, format: string, methodName: string, query: string)
    requires '/' !in format && '?' !in methodName
    ensures ParseQueryUrl(url, url + format + "/" + methodName + "?" + query) == Some(UrlParts(format, methodName, query))
  {
    var u := url + format + "/" + methodName + "?" + query;
    assert u[..|url|] == url;
    var rest := format + "/" + methodName + "?" + query;
    assert u[|url|..] == rest;
    IndexOfFirst(format, '/', methodName + "?" + query);
    assert rest == format + ['/'] + (methodName + "?" + query);
    var after := methodName + "?" + query;
    assert rest[|format| + 1..] == after;
    assert rest[..|format|] == format;
    IndexOfFirst(methodName, '?', query);
    assert after == methodName + ['?'] + query;
    assert after[..|methodName|] == methodName && after[|methodName| + 1..] == query;
  }

  /**
   * The URL holds the base, the format, the method and the encoded arguments, and
   * they can be read back, as long as the format has no '/' and the method no '?'.
   */
  lemma QueryUrlRoundTrip(url: string, format: string, methodName: string, args: map<string, PyObject>,
                          repr: PyObject -> string, quote: map<string, string> -> string)
    requires '/' !in format && '?' !in methodName
    requires StrValues(args, repr).Ok?
    ensures GetQueryUrl(url, format, methodName, Some(args), repr, quote).Ok?
    ensures ParseQueryUrl(url, GetQueryUrl(url, format, methodName, Some(args), repr, quote).value)
              == Some(UrlParts(format, methodName, quote(StrValues(args, repr).value)))
  {
    ComposedUrlParses(url, format, methodName, quote(StrValues(args, repr).value));
  }
}
