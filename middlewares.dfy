/**
 The Routing middleware: an ordered list of route entries that `MapRoute`
 extends, and `Execute`, which dispatches a request on the first entry that
 matches it. Controller lookup, action lookup and argument binding are the
 source's loops, each proved against the functions of module Dispatch.
 */
module Middlewares {
  import opened RoutingTypes
  import opened Naming
  import opened Dispatch

  /** The per-request context; `written` records, in order, the results
      executed against it (each one writes the HTTP response). */
  class HttpServerContext {
    const request: Request
    var written: seq<ActionResult>

    constructor (request: Request)
      ensures this.request == request && written == []
    {
      this.request := request;
      written := [];
    }
  }

  /** A controller instance: its type, and the context it serves. */
  class Controller {
    const controllerType: ExportedType
    var httpContext: HttpServerContext?

    /** Activator.CreateInstance: a fresh instance with no context yet. */
    constructor (controllerType: ExportedType)
      ensures this.controllerType == controllerType && httpContext == null
    {
      this.controllerType := controllerType;
      httpContext := null;
    }
  }

  /** ActionResult.Execute: renders the result into the context's response. */
  method ExecuteResult(result: ActionResult, context: HttpServerContext)
    modifies context
    ensures context.written == old(context.written) + [result]
  {
    context.written := context.written + [result];
  }

  class Routing {
    /** The reflection and conversion services of the assembly this
        middleware belongs to. */
    const runtime: Runtime
    var entries: seq<RouteEntry>

    constructor (runtime: Runtime)
      ensures this.runtime == runtime && entries == []
    {
      this.runtime := runtime;
      entries := [];
    }

    /** Appends one entry after the existing ones and returns this router,
        for chaining. */
    method MapRoute(name: string, url: string, defaults: Option<map<string, Value>>) returns (self: Routing)
      modifies this
      ensures entries == old(entries) + [RouteEntry(name, url, defaults)]
      ensures self == this
    {
      entries := entries + [RouteEntry(name, url, defaults)];
      return this;
    }

    /** Tries the entries in registration order; the first that matches is
        dispatched and its result executed, and the request is Processed.
        When none matches the request continues down the pipeline and the
        context is left alone. `consulted` counts the entries whose Match
        was evaluated. */
    method Execute(context: HttpServerContext) returns (outcome: Result<MiddlewareResult, Error>, ghost consulted: nat)
      modifies context
      ensures var found := FirstMatch(entries, context.request, runtime.matchRoute);
        && (found.None? ==>
              && outcome == Ok(Continue)
              && consulted == |entries|
              && context.written == old(context.written))
        && (found.Some? ==>
              && consulted == found.value.index + 1
              && match DispatchMatched(runtime, context.request, found.value.values)
                 case Err(e) => outcome == Err(e) && context.written == old(context.written)
                 case Ok(result) => outcome == Ok(Processed) && context.written == old(context.written) + [result])
    {
      consulted := 0;
      var i := 0;
      while i < |entries|
        invariant 0 <= i <= |entries|
        invariant forall j :: 0 <= j < i ==> runtime.matchRoute(entries[j], context.request).None?
        invariant context.written == old(context.written)
        invariant consulted == i
      {
        var routeValues := runtime.matchRoute(entries[i], context.request);
        consulted := consulted + 1;
        if routeValues.Some? {
          var controller :- CreateController(context, routeValues.value);
          var actionMethod :- GetActionMethod(controller, routeValues.value);
          var result :- GetActionResult(controller, actionMethod, routeValues.value);
          ExecuteResult(result, context);
          return Ok(Processed), consulted;
        }
        i := i + 1;
      }
      return Ok(Continue), consulted;
    }

    /** Instantiates the first exported type, in registry order, whose name is
        the controller token's class name and which is a Controller, and binds
        it to the context. */
    method CreateController(context: HttpServerContext, routeValues: RouteValues) returns (r: Result<Controller, Error>)
      ensures match RouteToken(routeValues, "controller")
        case Err(e) => r == Err(e)
        case Ok(token) =>
          match IndexOfController(runtime.exportedTypes, ControllerClassName(token))
          case None => r == Err(ControllerNotFound(ControllerClassName(token)))
          case Some(k) =>
            && r.Ok? && fresh(r.value)
            && r.value.controllerType == runtime.exportedTypes[k]
            && r.value.httpContext == context
    {
      var controllerName :- RouteToken(routeValues, "controller");
      var className := ControllerClassName(controllerName);
      var types := runtime.exportedTypes;
      var k := 0;
      while k < |types|
        invariant 0 <= k <= |types|
        invariant forall j :: 0 <= j < k ==> !IsControllerNamed(types[j], className)
      {
        if types[k].name == className && types[k].isController {
          var instance := new Controller(types[k]);
          instance.httpContext := context;
          return Ok(instance);
        }
        k := k + 1;
      }
      return Err(ControllerNotFound(className));
    }

    /** Looks up, on the controller's type, the method the action token names. */
    method GetActionMethod(controller: Controller, routeValues: RouteValues) returns (r: Result<ActionMethod, Error>)
      ensures match RouteToken(routeValues, "action")
        case Err(e) => r == Err(e)
        case Ok(token) =>
          && (r.Ok? <==> ActionMethodName(token) in controller.controllerType.methods)
          && (r.Ok? ==> r.value.name == ActionMethodName(token)
                        && r.value.parameters == controller.controllerType.methods[ActionMethodName(token)])
          && (r.Err? ==> r.error == ActionNotFound(controller.controllerType.name, ActionMethodName(token)))
    {
      var actionName :- RouteToken(routeValues, "action");
      actionName := ActionMethodName(actionName);
      if actionName !in controller.controllerType.methods {
        return Err(ActionNotFound(controller.controllerType.name, actionName));
      }
      return Ok(ActionMethod(actionName, controller.controllerType.methods[actionName]));
    }

    /** Fills one argument per parameter from the route values, invokes the
        action on the controller and normalises what it returns. */
    method GetActionResult(controller: Controller, actionMethod: ActionMethod, routeValues: RouteValues)
      returns (r: Result<ActionResult, Error>)
      requires controller.httpContext != null
      ensures match Bind(actionMethod.parameters, routeValues, runtime.changeType)
        case Err(e) => r == Err(e)
        case Ok(args) =>
          r == Ok(Normalise(runtime.invoke(controller.controllerType.name, controller.httpContext.request,
                                           actionMethod.name, args), runtime.toText))
    {
      var methodParams := actionMethod.parameters;
      var paramValues := new Value[|methodParams|];
      for i := 0 to |methodParams|
        invariant Bind(methodParams[..i], routeValues, runtime.changeType) == Ok(paramValues[..i])
      {
        var name := methodParams[i].name;
        var next := methodParams[..i + 1];
        assert next[..|next| - 1] == methodParams[..i];
        if name !in routeValues {
          BindPrefixErr(methodParams, i + 1, routeValues, runtime.changeType);
          return Err(MissingRouteValue(name));
        }
        var paramValue := runtime.changeType(routeValues[name], methodParams[i].parameterType);
        if paramValue.None? {
          BindPrefixErr(methodParams, i + 1, routeValues, runtime.changeType);
          return Err(ConversionFailed(name, methodParams[i].parameterType));
        }
        paramValues[i] := paramValue.value;
        assert paramValues[..i + 1] == paramValues[..i] + [paramValue.value];
      }
      assert methodParams[..|methodParams|] == methodParams;
      assert paramValues[..] == paramValues[..|methodParams|];

      var result := runtime.invoke(controller.controllerType.name, controller.httpContext.request,
                                   actionMethod.name, paramValues[..]);
      return Ok(Normalise(result, runtime.toText));
    }
  }
}
