/**
 * The method table and the operations generated from it.
 *
 * Each `(name, type, options)` triple of the table turns into one argument of a
 * generated Python function and a few lines of its body. This module interprets
 * the table directly: `Bind` gives the value Python binds to each argument of the
 * generated `def` (positional arguments, keywords and the defaults written into the
 * signature), and `BuildArgs` runs the generated body, which fills the `args` dict.
 */
module Catalog {
  import opened Wrappers
  import opened PyObjects

  /** The type slot of a parameter. Only `list` and the `json` marker class change the generated code. */
  datatype ParamType = IntType | StrType | BoolType | ListType | JsonType

  /** An entry of a parameter's option list: the string 'optional', a ('default', v) tuple, or anything else. */
  datatype ParamOption = Optional | Default(value: PyObject) | OtherOption

  datatype ParamSpec = ParamSpec(name: string, kind: ParamType, options: seq<ParamOption>)

  /** Operation name to its ordered parameters. */
  type Namespace = map<string, seq<ParamSpec>>

  /** Namespace name to its operations. */
  type Catalog = map<string, Namespace>

  const METHODS: Catalog := map[
    "events" := map[
      "event_get" := [ParamSpec("id", IntType, [])],
      "event_list_attendees" := [ParamSpec("id", IntType, [])]
    ]
  ]

  predicate IsOptional(p: ParamSpec) {
    Optional in p.options
  }

  /** The `v` of every ('default', v) option, in table order. */
  function DefaultsOf(options: seq<ParamOption>): (ds: seq<PyObject>)
    ensures |ds| <= |options|
    ensures forall v :: v in ds <==> Default(v) in options
  {
    if options == [] then []
    else (if options[0].Default? then [options[0].value] else []) + DefaultsOf(options[1..])
  }

  /**
   * The default the generated `def` line gives the argument, or None when the
   * argument is required. 'optional' writes `name=None` over any default; a
   * list-typed default is written as `name=None` and applied in the body; any
   * other default is written into the signature, the last one winning.
   */
  function SignatureDefault(p: ParamSpec): (r: Option<PyObject>)
    ensures r.None? <==> !IsOptional(p) && DefaultsOf(p.options) == []
    ensures (IsOptional(p) || p.kind == ListType) && r.Some? ==> r == Some(PyNone)
    ensures !IsOptional(p) && p.kind != ListType && r.Some? ==> r.value in DefaultsOf(p.options)
  {
    var ds := DefaultsOf(p.options);
    if IsOptional(p) then Some(PyNone)
    else if ds == [] then None
    else if p.kind == ListType then Some(PyNone)
    else Some(ds[|ds| - 1])
  }

  /**
   * The body lines `if name is None: name = v` emitted for each default of a
   * list-typed parameter, run in order: the first default that is not None wins.
   */
  function FillListDefault(ds: seq<PyObject>, x: PyObject): (r: PyObject)
    ensures x != PyNone ==> r == x
    ensures r == PyNone <==> x == PyNone && forall i :: 0 <= i < |ds| ==> ds[i] == PyNone
    ensures x == PyNone && r != PyNone ==>
              exists i :: 0 <= i < |ds| && ds[i] == r && forall j :: 0 <= j < i ==> ds[j] == PyNone
  {
    if ds == [] then x
    else
      var r := FillListDefault(ds[1..], if x == PyNone then ds[0] else x);
      assert x == PyNone && ds[0] == PyNone && r != PyNone ==>
        exists i :: 0 <= i < |ds[1..]| && ds[1..][i] == r && forall j :: 0 <= j < i ==> ds[1..][j] == PyNone;
      r
  }

  /**
   * The value the generated body leaves in the argument: list defaults applied,
   * then a `json`-typed list or dict replaced by its JSON text (`dumps`).
   */
  function BodyValue(p: ParamSpec, x: PyObject, dumps: PyObject -> string): (r: PyObject)
    ensures p.kind != ListType && p.kind != JsonType ==> r == x
    ensures p.kind == ListType ==> r == FillListDefault(DefaultsOf(p.options), x)
    ensures r != x && p.kind == JsonType ==> r == PyStr(dumps(x))
  {
    var filled := if p.kind == ListType then FillListDefault(DefaultsOf(p.options), x) else x;
    if p.kind == JsonType && (filled.PyList? || filled.PyDict?) then PyStr(dumps(filled)) else filled
  }

  /** The body's last line for one parameter: `if name is not None: args[name] = name`, or plain `args[name] = name`. */
  function Assign(args: map<string, PyObject>, p: ParamSpec, v: PyObject): (r: map<string, PyObject>)
    ensures !(IsOptional(p) && v == PyNone) ==> p.name in r && r[p.name] == v
    ensures IsOptional(p) && v == PyNone ==> (p.name in r <==> p.name in args)
    ensures forall k :: k != p.name ==> (k in r <==> k in args)
    ensures forall k :: k in args && k != p.name ==> r[k] == args[k]
  {
    if IsOptional(p) && v == PyNone then args else args[p.name := v]
  }

  /** The generated body: `args = {}`, then each parameter's lines in table order. */
  function BuildArgs(params: seq<ParamSpec>, values: seq<PyObject>, dumps: PyObject -> string): (r: map<string, PyObject>)
    requires |values| == |params|
    ensures |r| <= |params|
  {
    if params == [] then map[]
    else
      var n := |params| - 1;
      Assign(BuildArgs(params[..n], values[..n], dumps), params[n], BodyValue(params[n], values[n], dumps))
  }

  // ---------------------------------------------------------------------------
  // Generating the operations
  // ---------------------------------------------------------------------------

  predicate DistinctNames(params: seq<ParamSpec>) {
    forall i, j :: 0 <= i < j < |params| ==> params[i].name != params[j].name
  }

  /** The names a `json`-typed parameter's body line reads: `simplejson.dumps`, `isinstance`, `list` and `dict`. */
  const JSON_LINE_NAMES := {"simplejson", "isinstance", "list", "dict"}

  /**
   * The generated `def name(self, ...)` compiles: no argument repeats another or
   * `self`, and no argument without a default follows one with a default. And the
   * body means what the table says: no argument is named `args`, which the body's
   * first line `args = {}` would rebind, and when some argument is `json`-typed no
   * argument hides a name that argument's line reads.
   */
  predicate ValidSignature(params: seq<ParamSpec>) {
    && DistinctNames(params)
    && (forall i :: 0 <= i < |params| ==> params[i].name != "self" && params[i].name != "args")
    && (forall i, j :: 0 <= i < j < |params| && SignatureDefault(params[i]).Some? ==> SignatureDefault(params[j]).Some?)
    && (forall i, j :: 0 <= i < |params| && 0 <= j < |params| && params[i].kind == JsonType ==>
          params[j].name !in JSON_LINE_NAMES)
  }

  /** Generating the proxies at import time raises no SyntaxError, and every generated body behaves as modelled. */
  predicate Compiles(catalog: Catalog) {
    forall ns, m :: ns in catalog && m in catalog[ns] ==> ValidSignature(catalog[ns][m])
  }

  lemma MethodsCompile()
    ensures Compiles(METHODS)
  {
  }

  // ---------------------------------------------------------------------------
  // Calling a generated operation
  // ---------------------------------------------------------------------------

  /** A keyword argument names a parameter that no positional argument has filled. */
  predicate KeywordAccepted(params: seq<ParamSpec>, given: nat, k: string) {
    exists i :: given <= i < |params| && params[i].name == k
  }

  /** The value Python binds to parameter `i`: positional, then keyword, then the signature default. */
  function BindOne(params: seq<ParamSpec>, i: nat, positional: seq<PyObject>, keywords: map<string, PyObject>): (r: Result<PyObject, PyError>)
    requires i < |params|
    ensures r.Err? <==> i >= |positional| && params[i].name !in keywords && SignatureDefault(params[i]).None?
    ensures i < |positional| ==> r == Ok(positional[i])
    ensures i >= |positional| && params[i].name in keywords ==> r == Ok(keywords[params[i].name])
    ensures r.Err? ==> r.error == MissingArgument(params[i].name)
  {
    if i < |positional| then Ok(positional[i])
    else if params[i].name in keywords then Ok(keywords[params[i].name])
    else match SignatureDefault(params[i])
      case Some(d) => Ok(d)
      case None => Err(MissingArgument(params[i].name))
  }

  function BindFrom(params: seq<ParamSpec>, i: nat, positional: seq<PyObject>, keywords: map<string, PyObject>): (r: Result<seq<PyObject>, PyError>)
    requires i <= |params|
    decreases |params| - i
    ensures r.Ok? <==> forall j :: i <= j < |params| ==> BindOne(params, j, positional, keywords).Ok?
    ensures r.Ok? ==> |r.value| == |params| - i
    ensures r.Ok? ==> forall j :: i <= j < |params| ==> r.value[j - i] == BindOne(params, j, positional, keywords).value
    ensures r.Err? ==> exists j :: i <= j < |params| && BindOne(params, j, positional, keywords) == Err(r.error)
  {
    if i == |params| then Ok([])
    else
      var v :- BindOne(params, i, positional, keywords);
      var vs :- BindFrom(params, i + 1, positional, keywords);
      Ok([v] + vs)
  }

  /**
   * Binding a call `op(*positional, **keywords)` to the generated signature:
   * one value per parameter, or the TypeError Python raises.
   */
  function Bind(params: seq<ParamSpec>, positional: seq<PyObject>, keywords: map<string, PyObject>): (r: Result<seq<PyObject>, PyError>)
    ensures |positional| > |params| ==> r == Err(ArgumentMismatch)
    ensures r.Ok? ==> |r.value| == |params| && forall i :: 0 <= i < |params| ==> Ok(r.value[i]) == BindOne(params, i, positional, keywords)
    ensures r.Err? ==> r.error == ArgumentMismatch || exists i :: 0 <= i < |params| && r.error == MissingArgument(params[i].name)
  {
    if |positional| > |params| then Err(ArgumentMismatch)
    else if exists k :: k in keywords && !KeywordAccepted(params, |positional|, k) then Err(ArgumentMismatch)
    else BindFrom(params, 0, positional, keywords)
  }

  /** The `args` dict a generated operation hands to the proxy, or the error the call raises first. */
  function OperationArgs(params: seq<ParamSpec>, positional: seq<PyObject>, keywords: map<string, PyObject>,
                         dumps: PyObject -> string): (r: Result<map<string, PyObject>, PyError>)
    ensures r.Ok? <==> Bind(params, positional, keywords).Ok?
    ensures r.Err? ==> r == Err(Bind(params, positional, keywords).error)
    ensures r.Ok? ==> |r.value| <= |params|
  {
    var values :- Bind(params, positional, keywords);
    Ok(BuildArgs(params, values, dumps))
  }

  // ---------------------------------------------------------------------------
  // Properties
  // ---------------------------------------------------------------------------

  /** Where parameter `p`, whose body value is `v`, ends up in `args`. */
  predicate Placed(args: map<string, PyObject>, p: ParamSpec, v: PyObject) {
    if IsOptional(p) && v == PyNone then p.name !in args else p.name in args && args[p.name] == v
  }

  /** The generated body puts nothing in `args` but the parameters' own names. */
  lemma {:induction false} BuildArgsKeys(params: seq<ParamSpec>, values: seq<PyObject>, dumps: PyObject -> string)
    requires |values| == |params|
    ensures forall k :: k in BuildArgs(params, values, dumps) ==> exists i :: 0 <= i < |params| && params[i].name == k
  {
    if params != [] {
      var n := |params| - 1;
      var prefix := BuildArgs(params[..n], values[..n], dumps);
      BuildArgsKeys(params[..n], values[..n], dumps);
      var args := BuildArgs(params, values, dumps);
      assert args == Assign(prefix, params[n], BodyValue(params[n], values[n], dumps));
      forall k | k in args
        ensures exists i :: 0 <= i < |params| && params[i].name == k
      {
        if k != params[n].name {
          assert k in prefix;
          var i :| 0 <= i < n && params[..n][i].name == k;
          assert params[i].name == k;
        }
      }
    }
  }

  /** With distinct names, the lines before the last parameter's never store its name. */
  lemma LastNameNotInPrefix(params: seq<ParamSpec>, values: seq<PyObject>, dumps: PyObject -> string)
    requires |values| == |params| && params != [] && DistinctNames(params)
    ensures var n := |params| - 1;
      params[n].name !in BuildArgs(params[..n], values[..n], dumps)
  {
    var n := |params| - 1;
    BuildArgsKeys(params[..n], values[..n], dumps);
  }

  /**
   * The generated body puts every parameter under its own name, except an optional
   * one whose value is None, which it leaves out.
   */
  lemma {:induction false} BuildArgsEntries(params: seq<ParamSpec>, values: seq<PyObject>, dumps: PyObject -> string)
    requires |values| == |params| && DistinctNames(params)
    ensures forall i :: 0 <= i < |params| ==> Placed(BuildArgs(params, values, dumps), params[i], BodyValue(params[i], values[i], dumps))
  {
    if params != [] {
      var n := |params| - 1;
      var prefix := BuildArgs(params[..n], values[..n], dumps);
      assert DistinctNames(params[..n]);
      BuildArgsEntries(params[..n], values[..n], dumps);
      LastNameNotInPrefix(params, values, dumps);
      var args := BuildArgs(params, values, dumps);
      assert args == Assign(prefix, params[n], BodyValue(params[n], values[n], dumps));
      forall i | 0 <= i < |params|
        ensures Placed(args, params[i], BodyValue(params[i], values[i], dumps))
      {
        if i < n {
          assert params[..n][i] == params[i] && values[..n][i] == values[i];
          assert params[i].name != params[n].name;
        }
      }
    }
  }

  /**
   * A call binds if and only if it passes no more positional arguments than there
   * are parameters, every keyword names a parameter not already filled, and every
   * parameter without a signature default receives a value.
   */
  lemma BindSucceedsIff(params: seq<ParamSpec>, positional: seq<PyObject>, keywords: map<string, PyObject>)
    ensures Bind(params, positional, keywords).Ok? <==>
      && |positional| <= |params|
      && (forall k :: k in keywords ==> KeywordAccepted(params, |positional|, k))
      && (forall i :: |positional| <= i < |params| && SignatureDefault(params[i]).None? ==> params[i].name in keywords)
  {
    var r := Bind(params, positional, keywords);
    if |positional| <= |params| && (forall k :: k in keywords ==> KeywordAccepted(params, |positional|, k)) {
      assert r == BindFrom(params, 0, positional, keywords);
      if r.Ok? {
        forall i | |positional| <= i < |params| && SignatureDefault(params[i]).None?
          ensures params[i].name in keywords
        {
          assert BindOne(params, i, positional, keywords).Ok?;
        }
      }
    }
  }

  /**
   * Leaving out a parameter that has no default and is not optional makes the
   * call fail; when nothing else is wrong with the call, it fails with
   * MissingArgument naming a required parameter.
   */
  lemma MissingRequiredFails(params: seq<ParamSpec>, positional: seq<PyObject>, keywords: map<string, PyObject>, i: nat)
    requires |positional| <= i < |params|
    requires params[i].name !in keywords
    requires !IsOptional(params[i]) && DefaultsOf(params[i].options) == []
    ensures Bind(params, positional, keywords).Err?
    ensures (forall k :: k in keywords ==> KeywordAccepted(params, |positional|, k)) ==>
      exists j :: 0 <= j < |params| && SignatureDefault(params[j]).None?
        && Bind(params, positional, keywords) == Err(MissingArgument(params[j].name))
  {
    assert SignatureDefault(params[i]).None?;
    BindSucceedsIff(params, positional, keywords);
    var r := Bind(params, positional, keywords);
    if forall k :: k in keywords ==> KeywordAccepted(params, |positional|, k) {
      assert r == BindFrom(params, 0, positional, keywords);
      var j :| 0 <= j < |params| && BindOne(params, j, positional, keywords) == Err(r.error);
    }
  }

  /** A parameter the caller leaves out is bound to its signature default. */
  lemma OmittedBindsDefault(params: seq<ParamSpec>, positional: seq<PyObject>, keywords: map<string, PyObject>, i: nat)
    requires Bind(params, positional, keywords).Ok?
    requires |positional| <= i < |params| && params[i].name !in keywords
    ensures SignatureDefault(params[i]).Some?
    ensures var values := Bind(params, positional, keywords).value;
      |values| == |params| && values[i] == SignatureDefault(params[i]).value
  {
    var values := Bind(params, positional, keywords).value;
    assert values == BindFrom(params, 0, positional, keywords).value;
    assert values[i] == BindOne(params, i, positional, keywords).value;
  }

  /** Where the body puts a parameter that holds its signature default. */
  lemma PlacedDefault(args: map<string, PyObject>, p: ParamSpec, dumps: PyObject -> string)
    requires SignatureDefault(p).Some?
    requires Placed(args, p, BodyValue(p, SignatureDefault(p).value, dumps))
    ensures var ds := DefaultsOf(p.options);
      && (!IsOptional(p) && p.kind != ListType ==>
            ds != [] && p.name in args && args[p.name] == BodyValue(p, ds[|ds| - 1], dumps))
      && (p.kind == ListType && (!IsOptional(p) || FillListDefault(ds, PyNone) != PyNone) ==>
            p.name in args && args[p.name] == FillListDefault(ds, PyNone))
      && (p.kind == ListType && IsOptional(p) && FillListDefault(ds, PyNone) == PyNone ==> p.name !in args)
      && (IsOptional(p) && p.kind != ListType ==> p.name !in args)
  {
  }

  /**
   * A parameter the caller leaves out. A plain default is used as given (the
   * last one, JSON-encoded when the parameter is `json`-typed); a list default
   * is the first default that is not None; 'optional' discards a plain default,
   * so the key is left out, while a list default still fills it.
   */
  lemma OmittedParameter(params: seq<ParamSpec>, positional: seq<PyObject>, keywords: map<string, PyObject>,
                         dumps: PyObject -> string, i: nat)
    requires ValidSignature(params)
    requires Bind(params, positional, keywords).Ok?
    requires |positional| <= i < |params| && params[i].name !in keywords
    ensures var args := OperationArgs(params, positional, keywords, dumps).value;
            var p, ds := params[i], DefaultsOf(params[i].options);
      && (!IsOptional(p) && p.kind != ListType ==>
            ds != [] && p.name in args && args[p.name] == BodyValue(p, ds[|ds| - 1], dumps))
      && (p.kind == ListType && (!IsOptional(p) || FillListDefault(ds, PyNone) != PyNone) ==>
            p.name in args && args[p.name] == FillListDefault(ds, PyNone))
      && (p.kind == ListType && IsOptional(p) && FillListDefault(ds, PyNone) == PyNone ==> p.name !in args)
      && (IsOptional(p) && p.kind != ListType ==> p.name !in args)
  {
    var values := Bind(params, positional, keywords).value;
    OmittedBindsDefault(params, positional, keywords, i);
    BuildArgsEntries(params, values, dumps);
    var args := BuildArgs(params, values, dumps);
    assert Placed(args, params[i], BodyValue(params[i], values[i], dumps));
    PlacedDefault(args, params[i], dumps);
  }

  /** A `json`-typed value is replaced by its JSON text exactly when it is a list or a dict. */
  lemma JsonDumpedOnlyForContainers(p: ParamSpec, x: PyObject, dumps: PyObject -> string)
    requires p.kind == JsonType
    ensures BodyValue(p, x, dumps) == if x.PyList? || x.PyDict? then PyStr(dumps(x)) else x
  {
  }

  /** Defaults are collected in table order: a `('default', v)` appended to the options appends `v`. */
  lemma {:induction false} DefaultsOfAppend(options: seq<ParamOption>, x: ParamOption)
    ensures DefaultsOf(options + [x]) == DefaultsOf(options) + (if x.Default? then [x.value] else [])
    decreases |options|
  {
    if options == [] {
      assert [] + [x] == [x];
      assert [x][1..] == [];
    } else {
      assert (options + [x])[0] == options[0];
      assert (options + [x])[1..] == options[1..] + [x];
      DefaultsOfAppend(options[1..], x);
    }
  }

  /** `events.event_get(42)` sends `{'id': 42}`; `events.event_get()` raises the missing-argument TypeError. */
  lemma EventGetArguments(dumps: PyObject -> string)
    ensures OperationArgs(METHODS["events"]["event_get"], [PyInt(42)], map[], dumps) == Ok(map["id" := PyInt(42)])
    ensures OperationArgs(METHODS["events"]["event_get"], [], map["id" := PyInt(42)], dumps) == Ok(map["id" := PyInt(42)])
    ensures OperationArgs(METHODS["events"]["event_get"], [], map[], dumps) == Err(MissingArgument("id"))
    ensures OperationArgs(METHODS["events"]["event_get"], [PyInt(1), PyInt(2)], map[], dumps) == Err(ArgumentMismatch)
  {
    var params := METHODS["events"]["event_get"];
    assert KeywordAccepted(params, 0, "id") by { assert params[0].name == "id"; }
    assert BuildArgs(params, [PyInt(42)], dumps) == map["id" := PyInt(42)] by {
      assert params[..0] == [];
    }
  }
}
