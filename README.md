# URL routing middleware of WebServerExample, in Dafny

This project models the `Routing` middleware of the WebServerExample web
server. `Routing` keeps an ordered list of route entries. `MapRoute` appends to
that list and returns the router, so calls can be chained. `Execute` tries the
entries in registration order. On the first entry whose `Match` returns route
values, it does four things:

- It instantiates the controller named by the `controller` route value. The
  class name is the token with its first character upper-cased, followed by
  `Controller`.
- It finds the action method named by the `action` route value. The method
  name is the token with its first character upper-cased, with no suffix.
- It binds one argument per method parameter from the route values and
  invokes the method.
- It normalises the return value to an `ActionResult` and executes that
  result against the request context.

The request is then `Processed`. If no entry matches, the request goes on to
the next middleware (`Continue`).

Files:

- `routing_types.dfy` (module `RoutingTypes`): route entries, route values,
  exported types and their methods, action results, the exceptions dispatch
  throws, and `Runtime`. `Runtime` bundles, as function-valued fields, the
  services the router uses but does not define: the assembly's exported types,
  `RouteEntry.Match`, `MethodInfo.Invoke`, `Convert.ChangeType` and
  `Convert.ToString`.
- `naming.dfy` (module `Naming`): the two naming conventions and their
  properties.
- `dispatch.dfy` (module `Dispatch`): what one dispatch computes, as functions.
  These are the first matching entry, the controller lookup, the action
  lookup, argument binding, result normalisation and their composition,
  `DispatchMatched`. It also holds the lemmas about them.
- `middlewares.dfy` (module `Middlewares`): the `Routing` class with its
  `entries` field and the source's loops. Each loop is proved against the
  functions of `Dispatch`. `HttpServerContext.written` records the results
  executed against a context.

Each exception the source can throw on the dispatch path is an `Error` value
in a `Result`:

- a missing route value;
- a null token, a token that is not a string, or an empty token;
- a controller that is not found;
- an action that is not found;
- a failed conversion.

## Model

| member | source | states |
|---|---|---|
| `Middlewares.Routing.constructor` | WebServerExample/Middlewares/Routing.cs:16-19 | A new router has no route entries. |
| `Middlewares.Routing.MapRoute` | WebServerExample/Middlewares/Routing.cs:30-34 | Exactly one entry, built from the arguments, is appended after the existing ones. The earlier entries and their order are unchanged, and the same router is returned for chaining. |
| `Dispatch.FirstMatchAfterAppend` | WebServerExample/Middlewares/Routing.cs:30-34 | A route mapped later never changes the dispatch of a request that an earlier route matches. A request that no earlier route matches goes to the new route exactly when the new route matches it. |
| `Middlewares.Routing.Execute` | WebServerExample/Middlewares/Routing.cs:36-53 | If no entry matches, the result is `Continue`, every entry's Match was consulted, and nothing is executed against the context. Otherwise only the entries up to the first match were consulted, and the outcome is dispatch on that entry's route values. On success, that one result is executed against the context and the outcome is `Processed`. On an exception, the exception propagates and nothing is executed. |
| `Dispatch.FirstMatch` | WebServerExample/Middlewares/Routing.cs:38-50 | The chosen entry matches, and every earlier entry returned null. If no entry is chosen, every entry returned null. |
| `Dispatch.RouteToken` | WebServerExample/Middlewares/Routing.cs:57-58 | A token is produced exactly when the route value is a non-empty string. A missing key, a null, a non-string and an empty string each give their own exception. |
| `Naming.ToUpper` | WebServerExample/Middlewares/Routing.cs:58 | The result is never a lower-case ASCII letter. It differs from the input exactly when the input is one, and then it is the matching upper-case letter. |
| `Naming.Capitalize` | WebServerExample/Middlewares/Routing.cs:58 | The name has the token's length and an upper-cased first character, and it agrees with the token from the second character on. |
| `Naming.ControllerClassName` | WebServerExample/Middlewares/Routing.cs:58 | The class name is 10 characters longer than the token. Its first character is the token's first character upper-cased. It agrees with the token from the second character on, and it ends in `Controller`. |
| `Naming.ControllerClassNameShape` | WebServerExample/Middlewares/Routing.cs:58 | A controller class name is the capitalized token followed by the suffix `Controller`. |
| `Naming.ControllerClassNameEqualIff` | WebServerExample/Middlewares/Routing.cs:58 | Two controller tokens give the same class name exactly when they capitalize to the same name. |
| `Naming.HomeControllerName` | WebServerExample/Middlewares/Routing.cs:58 | The token `home` gives the class name `HomeController`. |
| `Naming.ActionMethodName` | WebServerExample/Middlewares/Routing.cs:75 | The method name has the token's length and carries no suffix. Its first character is the token's first character upper-cased, and it agrees with the token from the second character on. |
| `Naming.CapitalizeEqualIff` | WebServerExample/Middlewares/Routing.cs:75 | Two tokens give the same name exactly when their first characters agree after upper-casing and the rest is identical. |
| `Naming.CapitalizeIdempotent` | WebServerExample/Middlewares/Routing.cs:75 | Capitalizing an already capitalized name leaves it unchanged. |
| `Naming.IndexActionName` | WebServerExample/Middlewares/Routing.cs:75 | The tokens `index` and `Index` both give the method name `Index`. |
| `Dispatch.IndexOfController` | WebServerExample/Middlewares/Routing.cs:59-67 | The chosen type has the derived name and is a Controller, and no earlier type qualifies. If no type is chosen, none qualifies. |
| `Middlewares.Controller.constructor` | WebServerExample/Middlewares/Routing.cs:63 | A new instance records its type and has no context until one is assigned. |
| `Middlewares.Routing.CreateController` | WebServerExample/Middlewares/Routing.cs:55-69 | The controller token's exception propagates. If no type qualifies, the result is `ControllerNotFound` with the derived class name. Otherwise the result is a fresh instance of the first qualifying type, in registry order, whose context is the given one. |
| `Dispatch.ControllerNotFoundError` | WebServerExample/Middlewares/Routing.cs:59-68 | When no exported type is a Controller with the derived name, dispatch ends in `ControllerNotFound` for that name. |
| `Dispatch.ActionMethodOf` | WebServerExample/Middlewares/Routing.cs:75-78 | The method is found exactly when the capitalized action token names a method of the type. Otherwise the error is `ActionNotFound` with the type's name and the method name. |
| `Middlewares.Routing.GetActionMethod` | WebServerExample/Middlewares/Routing.cs:71-80 | The action token's exception propagates. Otherwise a method is returned exactly when the controller's type has a method with the capitalized name. The returned method has that name and that parameter list. If there is no such method, the error is `ActionNotFound`. |
| `Dispatch.BindParameter` | WebServerExample/Middlewares/Routing.cs:89-90 | An argument is produced exactly when the route values hold the parameter's name and that value converts to the parameter's type. The error is a missing route value or a failed conversion. |
| `Dispatch.Bind` | WebServerExample/Middlewares/Routing.cs:85-92 | A successful binding has exactly one argument per parameter, and every parameter's name is a key of the route values. |
| `Dispatch.BindOk` | WebServerExample/Middlewares/Routing.cs:85-92 | Binding succeeds exactly when every parameter binds. It then yields exactly one argument per parameter, and argument i is the converted route value of parameter i. |
| `Dispatch.BindErr` | WebServerExample/Middlewares/Routing.cs:85-92 | A failed binding reports the error of a parameter that cannot be bound, and every earlier parameter binds. |
| `Dispatch.BindPrefixErr` | WebServerExample/Middlewares/Routing.cs:87-92 | Once a prefix of the parameters fails to bind, the whole binding fails with the same error. |
| `Middlewares.Routing.GetActionResult` | WebServerExample/Middlewares/Routing.cs:82-100 | If binding fails, its error is the result. Otherwise the method is invoked on the controller, with the controller's request and the bound arguments in parameter order. What it returns is normalised. |
| `Dispatch.Normalise` | WebServerExample/Middlewares/Routing.cs:95-99 | An `ActionResult` is returned unchanged. Any other value, null included, becomes a `ContentResult` of its string conversion with content type `text/html`. |
| `Dispatch.DispatchMatched` | WebServerExample/Middlewares/Routing.cs:43-45 | The controller token's exception is the result when that token is invalid. A success implies that both tokens are valid and that some Controller type has the derived class name. |
| `Dispatch.DispatchOkIff` | WebServerExample/Middlewares/Routing.cs:43-45 | Dispatch on matched route values succeeds exactly when these all hold: the controller token is valid, some Controller type has the derived class name, the action token is valid, the first such type has the derived method, and every parameter of that method binds. The result is then the normalised value of invoking that method, on that type, with the bound arguments. |
| `Middlewares.ExecuteResult` | WebServerExample/Middlewares/Routing.cs:46 | Executing a result records exactly that result, after the ones already written to the context. |

## Left out

- Reflection. The exported types of the assembly are a sequence of records:
  a name, whether the type is assignable to `Controller`, and its public
  methods. `Type.GetMethod` is a lookup in a map from method name to
  parameter list, with one method per name. Ambiguous overloads
  (`AmbiguousMatchException`) are not modelled.
- `Activator.CreateInstance` is modelled as allocating a `Controller` object
  that records its type. Constructors that run code or throw are not
  modelled.
- `RouteEntry.Match`, `MethodInfo.Invoke`, `Convert.ChangeType` and
  `Convert.ToString` have no definition here. Their implementations are not
  part of this model, so they are function-valued fields of `Runtime`.
  `ChangeType` may fail (`None`). `Invoke` is total and depends only on the
  controller's type, its request, the method and the arguments. Exceptions
  thrown inside an action are not modelled.
- `RouteValueDictionary` is a map. A missing key is the error
  `MissingRouteValue`, because the indexer's behaviour is not part of this
  model.
- `char.ToUpper` is modelled on ASCII only (a to z becomes A to Z). Culture
  rules and other Unicode letters are not modelled.
- `ActionResult.Execute` writes the HTTP response, which is I/O. The model only
  records, in `HttpServerContext.written`, which results were executed and in
  what order.
- The middleware pipeline around `Routing` and the contents of
  `HttpServerContext` beyond its request are external collaborators and are
  not modelled.
- Middlewares.Routing.Execute: the model cannot observe object allocation or
  action invocation. So on `Continue`, "no controller is created and no action
  is invoked" is not stated. What is proved is that the outcome is `Continue`
  and nothing is written to the context.
- `ExportedType.methods` stands for what `Type.GetMethod` can see. That
  includes inherited public methods, such as `ToString` and `GetType` from
  `Object` and the public members of the `Controller` base class. A token
  such as `toString` therefore resolves to an action whenever that name is in
  the map.
