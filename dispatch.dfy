/**
 What one request's dispatch computes, as functions: the first route entry
 that matches, the controller type and action method the route values name,
 the arguments bound from the route values, and the normalised result. The
 imperative router in module Middlewares is proved against these.
 */
module Dispatch {
  import opened RoutingTypes
  import opened Naming

  /** The first matching entry: its position and the route values it gave. */
  datatype RouteMatch = RouteMatch(index: nat, values: RouteValues)

  /** The entries are tried in registration order and the first non-null
      match wins. */
  function FirstMatch(entries: seq<RouteEntry>, request: Request,
                      matchRoute: (RouteEntry, Request) -> Option<RouteValues>): (r: Option<RouteMatch>)
    ensures r.Some? ==>
      && r.value.index < |entries|
      && matchRoute(entries[r.value.index], request) == Some(r.value.values)
      && forall j :: 0 <= j < r.value.index ==> matchRoute(entries[j], request).None?
    ensures r.None? ==> forall j :: 0 <= j < |entries| ==> matchRoute(entries[j], request).None?
    decreases |entries|
  {
    if entries == [] then None
    else match matchRoute(entries[0], request)
      case Some(values) => Some(RouteMatch(0, values))
      case None =>
        match FirstMatch(entries[1..], request, matchRoute)
        case None => None
        case Some(m) => Some(RouteMatch(m.index + 1, m.values))
  }

  /** Registering a route never changes the dispatch of a request that an
      earlier route matches; a request no earlier route matches goes to the
      new route exactly when the new route matches it. */
  lemma {:induction false} FirstMatchAfterAppend(entries: seq<RouteEntry>, entry: RouteEntry, request: Request,
                                                 matchRoute: (RouteEntry, Request) -> Option<RouteValues>)
    ensures FirstMatch(entries, request, matchRoute).Some? ==>
      FirstMatch(entries + [entry], request, matchRoute) == FirstMatch(entries, request, matchRoute)
    ensures FirstMatch(entries, request, matchRoute).None? ==>
      FirstMatch(entries + [entry], request, matchRoute) ==
        match matchRoute(entry, request)
        case None => None
        case Some(values) => Some(RouteMatch(|entries|, values))
    decreases |entries|
  {
    if entries != [] {
      assert (entries + [entry])[0] == entries[0];
      assert (entries + [entry])[1..] == entries[1..] + [entry];
      FirstMatchAfterAppend(entries[1..], entry, request, matchRoute);
    }
  }

  /** `(string)routeValues[key]` followed by indexing its first character:
      the token, or the exception the source runs into. */
  function RouteToken(values: RouteValues, key: string): (r: Result<string, Error>)
    ensures r.Ok? <==> key in values && values[key].Text? && |values[key].text| > 0
    ensures r.Ok? ==> r.value == values[key].text
    ensures key !in values ==> r == Err(MissingRouteValue(key))
    ensures key in values && values[key].Null? ==> r == Err(NullToken(key))
    ensures key in values && !values[key].Null? && !values[key].Text? ==> r == Err(NotText(key))
    ensures key in values && values[key] == Text("") ==> r == Err(EmptyToken(key))
  {
    if key !in values then Err(MissingRouteValue(key))
    else match values[key]
      case Null => Err(NullToken(key))
      case Text(token) => if token == "" then Err(EmptyToken(key)) else Ok(token)
      case _ => Err(NotText(key))
  }

  /** A type the controller lookup accepts for `className`. */
  predicate IsControllerNamed(t: ExportedType, className: string) {
    t.name == className && t.isController
  }

  /** The position of the first exported type with the given name that is a
      Controller, in registry order. */
  function IndexOfController(types: seq<ExportedType>, className: string): (r: Option<nat>)
    ensures r.Some? ==>
      && r.value < |types|
      && IsControllerNamed(types[r.value], className)
      && forall j :: 0 <= j < r.value ==> !IsControllerNamed(types[j], className)
    ensures r.None? ==> forall j :: 0 <= j < |types| ==> !IsControllerNamed(types[j], className)
    decreases |types|
  {
    if types == [] then None
    else if IsControllerNamed(types[0], className) then Some(0)
    else match IndexOfController(types[1..], className)
      case None => None
      case Some(k) => Some(k + 1)
  }

  /** The action method an action token names on a controller type. */
  function ActionMethodOf(t: ExportedType, token: string): (r: Result<ActionMethod, Error>)
    requires |token| > 0
    ensures r.Ok? <==> ActionMethodName(token) in t.methods
    ensures r.Ok? ==> r.value == ActionMethod(ActionMethodName(token), t.methods[ActionMethodName(token)])
    ensures r.Err? ==> r.error == ActionNotFound(t.name, ActionMethodName(token))
  {
    var name := ActionMethodName(token);
    if name in t.methods then Ok(ActionMethod(name, t.methods[name]))
    else Err(ActionNotFound(t.name, name))
  }

  /** The argument for one parameter: the route value under the parameter's
      name, converted to the parameter's type. */
  function BindParameter(p: Parameter, values: RouteValues,
                         changeType: (Value, string) -> Option<Value>): (r: Result<Value, Error>)
    ensures r.Ok? <==> p.name in values && changeType(values[p.name], p.parameterType).Some?
    ensures r.Ok? ==> Some(r.value) == changeType(values[p.name], p.parameterType)
    ensures p.name !in values ==> r == Err(MissingRouteValue(p.name))
    ensures p.name in values && r.Err? ==> r == Err(ConversionFailed(p.name, p.parameterType))
  {
    if p.name !in values then Err(MissingRouteValue(p.name))
    else match changeType(values[p.name], p.parameterType)
      case None => Err(ConversionFailed(p.name, p.parameterType))
      case Some(v) => Ok(v)
  }

  /** The arguments for a parameter list, bound left to right; the first
      parameter that cannot be bound ends the binding. */
  function Bind(params: seq<Parameter>, values: RouteValues,
                changeType: (Value, string) -> Option<Value>): (r: Result<seq<Value>, Error>)
    ensures r.Ok? ==> |r.value| == |params|
    ensures r.Ok? ==> forall i :: 0 <= i < |params| ==> params[i].name in values
    decreases |params|
  {
    if params == [] then Ok([])
    else match Bind(params[..|params| - 1], values, changeType)
      case Err(e) => Err(e)
      case Ok(args) =>
        match BindParameter(params[|params| - 1], values, changeType)
        case Err(e) => Err(e)
        case Ok(v) => Ok(args + [v])
  }

  /** Binding succeeds exactly when every parameter binds, and then yields
      one argument per parameter, in parameter order. */
  lemma {:induction false} BindOk(params: seq<Parameter>, values: RouteValues,
                                  changeType: (Value, string) -> Option<Value>)
    ensures Bind(params, values, changeType).Ok? <==>
      forall i :: 0 <= i < |params| ==> BindParameter(params[i], values, changeType).Ok?
    ensures Bind(params, values, changeType).Ok? ==>
      && |Bind(params, values, changeType).value| == |params|
      && forall i :: 0 <= i < |params| ==>
           Bind(params, values, changeType).value[i] == BindParameter(params[i], values, changeType).value
    decreases |params|
  {
    if params != [] {
      var init := params[..|params| - 1];
      BindOk(init, values, changeType);
      assert forall i :: 0 <= i < |init| ==> init[i] == params[i];
    }
  }

  /** A failed binding reports the error of the first parameter that cannot
      be bound; every parameter before it binds. */
  lemma {:induction false} BindErr(params: seq<Parameter>, values: RouteValues,
                                   changeType: (Value, string) -> Option<Value>)
    requires Bind(params, values, changeType).Err?
    ensures exists i ::
      && 0 <= i < |params|
      && BindParameter(params[i], values, changeType) == Err(Bind(params, values, changeType).error)
      && forall j :: 0 <= j < i ==> BindParameter(params[j], values, changeType).Ok?
    decreases |params|
  {
    var n := |params| - 1;
    var init := params[..n];
    assert forall i :: 0 <= i < |init| ==> init[i] == params[i];
    if Bind(init, values, changeType).Err? {
      BindErr(init, values, changeType);
      var i :|
        && 0 <= i < |init|
        && BindParameter(init[i], values, changeType) == Err(Bind(init, values, changeType).error)
        && forall j :: 0 <= j < i ==> BindParameter(init[j], values, changeType).Ok?;
      assert BindParameter(params[i], values, changeType) == Err(Bind(params, values, changeType).error);
    } else {
      BindOk(init, values, changeType);
      assert BindParameter(params[n], values, changeType) == Err(Bind(params, values, changeType).error);
    }
  }

  /** Once a prefix of the parameter list fails to bind, the whole list
      fails with the same error. */
  lemma {:induction false} BindPrefixErr(params: seq<Parameter>, k: nat, values: RouteValues,
                                         changeType: (Value, string) -> Option<Value>)
    requires k <= |params|
    requires Bind(params[..k], values, changeType).Err?
    ensures Bind(params, values, changeType) == Bind(params[..k], values, changeType)
    decreases |params| - k
  {
    if k < |params| {
      var next := params[..k + 1];
      assert next[..|next| - 1] == params[..k];
      BindPrefixErr(params, k + 1, values, changeType);
    } else {
      assert params[..k] == params;
    }
  }

  /** `result as ActionResult`, else a text/html ContentResult holding
      Convert.ToString(result). */
  function Normalise(result: Value, toText: Value -> string): (r: ActionResult)
    ensures result.Action? ==> r == result.result
    ensures !result.Action? ==> r == ContentResult(toText(result), "text/html")
  {
    match result
    case Action(actionResult) => actionResult
    case _ => ContentResult(toText(result), "text/html")
  }

  /** Everything dispatch does once a route has matched with `values`:
      resolve the controller, then the action, bind the arguments, invoke
      and normalise; the first exception ends it. */
  function DispatchMatched(runtime: Runtime, request: Request, values: RouteValues): (r: Result<ActionResult, Error>)
    ensures RouteToken(values, "controller").Err? ==> r == Err(RouteToken(values, "controller").error)
    ensures r.Ok? ==> RouteToken(values, "controller").Ok? && RouteToken(values, "action").Ok?
    ensures r.Ok? ==> IndexOfController(runtime.exportedTypes, ControllerClassName(values["controller"].text)).Some?
  {
    var controllerToken :- RouteToken(values, "controller");
    var className := ControllerClassName(controllerToken);
    match IndexOfController(runtime.exportedTypes, className)
    case None => Err(ControllerNotFound(className))
    case Some(i) =>
      var controllerType := runtime.exportedTypes[i];
      var actionToken :- RouteToken(values, "action");
      var action :- ActionMethodOf(controllerType, actionToken);
      var args :- Bind(action.parameters, values, runtime.changeType);
      Ok(Normalise(runtime.invoke(controllerType.name, request, action.name, args), runtime.toText))
  }

  /** Dispatch succeeds exactly when both tokens are valid, a Controller type
      has the derived class name, the first such type has the derived method,
      and every parameter of it binds. Its result is then the normalised
      value of invoking that method on that type with the bound arguments
      (one per parameter, in order: see BindOk). */
  lemma {:induction false} DispatchOkIff(runtime: Runtime, request: Request, values: RouteValues)
    ensures DispatchMatched(runtime, request, values).Ok? <==>
      && RouteToken(values, "controller").Ok?
      && IndexOfController(runtime.exportedTypes, ControllerClassName(values["controller"].text)).Some?
      && RouteToken(values, "action").Ok?
      && ActionMethodName(values["action"].text) in
           runtime.exportedTypes[IndexOfController(runtime.exportedTypes, ControllerClassName(values["controller"].text)).value].methods
      && forall p :: p in runtime.exportedTypes[IndexOfController(runtime.exportedTypes, ControllerClassName(values["controller"].text)).value]
                          .methods[ActionMethodName(values["action"].text)]
           ==> BindParameter(p, values, runtime.changeType).Ok?
    ensures DispatchMatched(runtime, request, values).Ok? ==>
      var controllerType := runtime.exportedTypes[
            IndexOfController(runtime.exportedTypes, ControllerClassName(values["controller"].text)).value];
      var actionName := ActionMethodName(values["action"].text);
      && actionName in controllerType.methods
      && Bind(controllerType.methods[actionName], values, runtime.changeType).Ok?
      && DispatchMatched(runtime, request, values).value ==
           Normalise(runtime.invoke(controllerType.name, request, actionName,
                                    Bind(controllerType.methods[actionName], values, runtime.changeType).value),
                     runtime.toText)
  {
    var r := RouteToken(values, "controller");
    if r.Ok? {
      var className := ControllerClassName(r.value);
      var found := IndexOfController(runtime.exportedTypes, className);
      if found.Some? {
        var t := runtime.exportedTypes[found.value];
        var a := RouteToken(values, "action");
        if a.Ok? && ActionMethodName(a.value) in t.methods {
          var params := t.methods[ActionMethodName(a.value)];
          BindOk(params, values, runtime.changeType);
          assert (forall p :: p in params ==> BindParameter(p, values, runtime.changeType).Ok?) <==>
                 (forall i :: 0 <= i < |params| ==> BindParameter(params[i], values, runtime.changeType).Ok?);
        }
      }
    }
  }

  /** When no Controller type has the derived class name, dispatch fails with
      ControllerNotFound and goes no further. */
  lemma ControllerNotFoundError(runtime: Runtime, request: Request, values: RouteValues)
    requires RouteToken(values, "controller").Ok?
    requires forall t :: t in runtime.exportedTypes ==>
               !IsControllerNamed(t, ControllerClassName(values["controller"].text))
    ensures DispatchMatched(runtime, request, values) ==
              Err(ControllerNotFound(ControllerClassName(values["controller"].text)))
  {
  }
}
