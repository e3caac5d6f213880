/**
 The values the URL-routing middleware works with: route entries, route
 values, the exported types of the assembly, their action methods, the
 results an action may produce, and the errors dispatch can end in.

 The runtime services the middleware reaches through reflection and the .NET
 conversion rules are gathered in `Runtime`, as functions whose definitions
 are not part of this model.
 */
module RoutingTypes {

  datatype Option<+T> = None | Some(value: T)

  /** Success or the exception that ends the call. */
  datatype Result<+T, +E> = Ok(value: T) | Err(error: E) {
    predicate IsFailure() {
      Err?
    }

    function PropagateFailure<U>(): Result<U, E>
      requires Err?
    {
      Err(error)
    }

    function Extract(): T
      requires Ok?
    {
      value
    }
  }

  /** An object that renders the HTTP response when executed. */
  datatype ActionResult =
    | ContentResult(content: string, contentType: string)
      /** Any other ActionResult subclass (a view, a redirect, ...). */
    | OtherResult(kind: string, payload: string)

  /** An object as the router sees it: a route value, a converted argument
      or what an action method returned. */
  datatype Value =
    | Null
    | Text(text: string)
    | Integer(number: int)
    | Boolean(flag: bool)
    | Action(result: ActionResult)
      /** Any other object, told apart by identity. */
    | Object(id: nat)

  /** The RouteValueDictionary that a successful match produces. */
  type RouteValues = map<string, Value>

  datatype Request = Request(httpMethod: string, url: string)

  /** One registered route; `defaults` is None when the caller passed null. */
  datatype RouteEntry = RouteEntry(name: string, url: string, defaults: Option<map<string, Value>>)

  /** A formal parameter of an action method: its name and declared type. */
  datatype Parameter = Parameter(name: string, parameterType: string)

  /** The MethodInfo found for an action: its name and its parameter list. */
  datatype ActionMethod = ActionMethod(name: string, parameters: seq<Parameter>)

  /** An exported type of the assembly: its simple name, whether it is
      assignable to Controller, and its public methods by name. */
  datatype ExportedType = ExportedType(name: string, isController: bool, methods: map<string, seq<Parameter>>)

  /** The services the router uses but does not define. */
  datatype Runtime = Runtime(
    /** The assembly's exported types, in the order reflection lists them. */
    exportedTypes: seq<ExportedType>,
    /** RouteEntry.Match: route values, or None for the source's null. */
    matchRoute: (RouteEntry, Request) -> Option<RouteValues>,
    /** Convert.ChangeType to the named type; None where it throws. */
    changeType: (Value, string) -> Option<Value>,
    /** MethodInfo.Invoke on a fresh instance of the named controller type
        bound to a context with the given request. */
    invoke: (string, Request, string, seq<Value>) -> Value,
    /** Convert.ToString. */
    toText: Value -> string)

  datatype MiddlewareResult = Processed | Continue

  /** The exceptions dispatch can throw. */
  datatype Error =
    | MissingRouteValue(key: string)
      /** NullReferenceException: the token was null. */
    | NullToken(key: string)
      /** InvalidCastException: the token was not a string. */
    | NotText(key: string)
      /** IndexOutOfRangeException: the token was the empty string. */
    | EmptyToken(key: string)
      /** ArgumentException "Controller {className} not found". */
    | ControllerNotFound(className: string)
      /** ArgumentException "Controller {type} has no action method {name}". */
    | ActionNotFound(controllerName: string, actionName: string)
      /** Convert.ChangeType failed on this parameter. */
    | ConversionFailed(parameter: string, parameterType: string)
}
