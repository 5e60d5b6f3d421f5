# pystapler request routing, modelled in Dafny

pystapler is a small WSGI application framework. A request path is routed by
object traversal. The path is split into segments. Each segment is looked up
in the *traversal map* of the current object's class. The method found there
is called with keyword arguments taken from the request's parameters. A
callable result is the response. Any other result becomes the next object,
and dispatch goes on with the remaining segments. When no segment remains,
the class's `@default` method is looked up instead.

The model covers:

- the route decorators `traversable` and `default` and their `_decorate_impl`;
- `_build_traversal_map` and the per-class cache of `_get_traversal_map`;
- `_MethodInfo`: the attribute memo, `required_args` and `traverse`;
- `_ObjectInfo`: `lookup` and `dispatch`;
- the path handling of `StaplerRoot.__call__`;
- `RequestParams.__init__` from pystapler/request.py.

Files:

- `wrappers.dfy`: `Option`.
- `pystr.dfy`: Python's `str.lstrip`, `str.split` and `str.join`.
- `request.dfy`: the request and its parameter dictionary.
- `routes.dfy`: function objects, the decorators, the argument metadata, and
  `BuildSpec`. `BuildSpec` is the map `_build_traversal_map` computes, with
  its properties.
- `dispatch.dfy`: the runtime.
  - The classes `ClassAttributes` (the cache), `MethodInfo` and `ObjectInfo`
    and their methods mirror the source.
  - Each method is proved equal to a pure specification: `BuildSpec`,
    `FirstMissing`, `Kwargs`, `Dispatched`/`Traversed` and `Respond`.
- `dispatch_props.dfy`: properties of the dispatch specification.
- `scenarios.dfy`: the applications of tests/dispatch_test.py and
  tests/server_test.py, and the response each of their requests gets.

Handler code is not interpreted. A dispatch takes a parameter
`invoke: (Function, kwargs) -> CallResult` saying what calling a method
returns: a callable (a response), another object, or an exception.
Python's unbounded recursion is bounded by a `fuel` count. `OutOfFuel` is
the outcome once it runs out.

The model follows the code in these cases:

- A method marked both `traversable` and `@default` is registered only
  under its traversable name. The `continue` at dispatch.py:96 skips the
  `DEFAULT` registration.
- Several `@default` methods on one class are not an error. The last one
  iterated silently wins.
- A member registered under a different traversable name, or under
  `DEFAULT`, writes no entry under its own name. Its name appears in the map
  only if another member writes it.
- A handler that returns a non-callable object of a built-in type, such as
  `None` or an undecorated `str`, makes `_get_traversal_map` raise
  `TypeError` at its `setattr`. `__call__` does not catch it.
- The docstring of `traversable` (dispatch.py:332-336) says that
  `@traversable('/something-completely-different')` serves the URL
  `/something-completely-different`. It cannot: the path is split at every
  `/`, so no segment ever contains one and the route is never looked up
  (`SlashRouteNeverLookedUp`).
- A handler may raise any werkzeug `HTTPException` (`Forbidden`, a redirect,
  `NotFound` with a description, ...). `__call__` catches every one of them
  and answers with it, not only the 404 and 400 the dispatcher produces.
- `GET /` splits into `['']`, so the root object's `DEFAULT` entry is never
  looked up. The request answers 404 unless some member is traversable as
  the empty string.

## Model

| member | source | states |
|---|---|---|
| PyStr.LStrip | pystapler/dispatch.py:61 | the result is a suffix of the input; everything removed is the strip character, and the result does not start with it |
| PyStr.Split | pystapler/dispatch.py:61 | a split is never empty and no piece holds the separator; there is exactly one piece iff the input has no separator |
| PyStr.JoinSplit | pystapler/dispatch.py:61 | joining the pieces of a split gives back the string |
| PyStr.SplitJoin | pystapler/dispatch.py:61 | splitting a join of separator-free pieces gives back the pieces |
| PyStr.SplitNoSeparator | pystapler/dispatch.py:61 | a string without the separator splits into itself alone |
| PyStr.SplitPrefix | pystapler/dispatch.py:61 | splitting `p + sep + t` with separator-free `p` gives `p` followed by the split of `t` |
| Request.ParamsOf | pystapler/request.py:19-24 | the dictionary holds exactly the query keys plus `request` and `form`; `request` and `form` are the injected values; every other key holds its query value |
| Request.NewRequestParams | pystapler/request.py:19-24 | the copy loop followed by the two injections builds exactly `ParamsOf(request)` |
| Request.InjectedKeysWin | pystapler/request.py:21-24 | a query parameter named `request` or `form` never reaches the dictionary: the injected value overwrites it |
| Routes.WithAttributes | pystapler/dispatch.py:300-305 | decoration sets each keyword as a prefixed attribute; name, signature, code and all other attributes are unchanged |
| Routes.DecorateImpl | pystapler/dispatch.py:300-305 | the attribute-setting loop produces `WithAttributes(f, kwargs)` |
| Routes.Default | pystapler/dispatch.py:308-314 | `@default` sets `default=True` and changes nothing else about the function |
| Routes.Traversable | pystapler/dispatch.py:317-348 | on a function, marks it traversable under its own `__name__` and changes nothing else; on a name, returns a closure over that name |
| Routes.DecoratorClosure | pystapler/dispatch.py:345-347 | the closure marks the function traversable under the captured name and changes nothing else |
| Routes.Name | pystapler/dispatch.py:208-213 | defines `_MethodInfo.name`: the `traversable_as` attribute when set, else the function's `__name__` |
| Routes.Undefaulted | pystapler/dispatch.py:228-231 | `args[:-len(defaults)]` keeps the leading positional parameters, and none when every one is defaulted |
| Routes.RequiredArgs | pystapler/dispatch.py:220-238 | defines `required_args`: slice off the defaulted parameters, fail (the `IndexError` of `args[0]`) when none is left, and drop a leading `self` |
| Routes.RequiredArgsFails | pystapler/dispatch.py:228-236 | `required_args` fails (the `IndexError` of `args[0]`) iff every parameter is defaulted |
| Routes.RequiredArgsMeaning | pystapler/dispatch.py:228-238 | when `required_args` succeeds, a name is required iff it is an undefaulted parameter other than a leading `self`, and the j-th required name is the j-th declared parameter, shifted by one after a leading `self` |
| Routes.KeyOfMember | pystapler/dispatch.py:88-104 | defines the key one loop iteration writes: the `traversable_as` value when set, else `DEFAULT` for a truthy `default`, else the member's own name |
| Routes.EntryOfMember | pystapler/dispatch.py:88-104 | defines the value one loop iteration writes: the method for a traversable or default callable, else `NOT_TRAVERSABLE` |
| Routes.BuildSpec | pystapler/dispatch.py:80-105 | defines the map `_build_traversal_map` returns: each member in iteration order writes its key, a later write replacing an earlier one |
| Routes.BuildSpecKeys | pystapler/dispatch.py:80-105 | the map holds exactly the keys some member writes, and each value is what one of those members wrote |
| Routes.LastWriterWins | pystapler/dispatch.py:88-104 | a member whose key no later member writes keeps its entry |
| Routes.TraversableKeyedByName | pystapler/dispatch.py:91-96 | a `traversable(n)` method sits under `n` unless overwritten later; `DEFAULT` and its own name are in the map only if another member writes them |
| Routes.DefaultKeyedByDefault | pystapler/dispatch.py:97-101 | a default-only method sits under `DEFAULT` unless a later default replaces it; its own name is in the map only if another member writes it |
| Routes.UndecoratedNotTraversable | pystapler/dispatch.py:89-104 | a non-callable or unmarked member is `NOT_TRAVERSABLE` under its own name unless overwritten later |
| Routes.LastDefaultWins | pystapler/dispatch.py:97-98 | with several default methods, the last one iterated is the `DEFAULT` entry |
| Routes.MethodEntriesAreNamed | pystapler/dispatch.py:208-213 | every method in the map sits under the key of its `name`, except a default-only method, which sits under `DEFAULT` |
| Dispatch.ClassAttributes.constructor | pystapler/dispatch.py:115-116 | before any dispatch, no class carries a cached traversal map |
| Dispatch.LookupShape | pystapler/dispatch.py:129-148 | looking up in the map of `_MethodInfo` objects agrees with looking up in its specification |
| Dispatch.ObjectInfo.LookupMember | pystapler/dispatch.py:129-148 | `lookup` gives the entry stored under the key, and `NOT_FOUND` exactly when the key is absent |
| Dispatch.FirstMissing | pystapler/dispatch.py:271-279 | there is no result iff every required name is present; otherwise the result is the first absent name in declaration order |
| Dispatch.FindMissing | pystapler/dispatch.py:271-279 | the loop over `required_args` stops at `FirstMissing` |
| Dispatch.Kwargs | pystapler/dispatch.py:280-289 | the handler receives `self` bound to the object, plus every parameter (with `**kwargs`) or only the declared parameters that are present, each with its value |
| Dispatch.BuildKwargs | pystapler/dispatch.py:280-289 | the keyword-building code computes `Kwargs` |
| Dispatch.Dispatched | pystapler/dispatch.py:150-186 | defines one `dispatch` step: `TypeError` for an object of built-in type, 404 for a missing or `NOT_TRAVERSABLE` entry under the head segment (or `DEFAULT`), else the traversal of the method found |
| Dispatch.Traversed | pystapler/dispatch.py:240-297 | defines `traverse`: the `IndexError` of `required_args`, the `BadRequest` for the first missing parameter, else the call's callable result, its raise, or dispatch of the rest of the path on the object it returned |
| Dispatch.SplitPath | pystapler/dispatch.py:61 | the segments are at least one, each free of `/`, and joined with `/` they give the path without its leading slashes |
| Dispatch.Respond | pystapler/dispatch.py:56-69 | an HTTP exception of any werkzeug class raised by dispatch becomes the response and never escapes; any other exception, and any returned response, is the outcome of dispatch unchanged |
| Dispatch.MethodInfo.constructor | pystapler/dispatch.py:195-197 | wraps the method with an empty attribute memo |
| Dispatch.MethodInfo.GetAttr | pystapler/dispatch.py:199-206 | returns `getattr(method, PREFIX + attribute, None)` and memoizes it; the memo only ever holds the function's current attributes |
| Dispatch.MethodInfo.Traverse | pystapler/dispatch.py:240-297 | the outcome is `Traversed`: the `IndexError`, the `BadRequest` for the first missing parameter, the callable result, the raise, or dispatch on the returned object; every map cached before the call is still cached, unchanged |
| Dispatch.BuildTraversalMap | pystapler/dispatch.py:80-105 | the loop builds the map `BuildSpec` describes |
| Dispatch.GetTraversalMap | pystapler/dispatch.py:108-120 | returns the class's map; it is built and stored on first use, and once stored it is returned unchanged; on a built-in type the `setattr` fails with nothing stored |
| Dispatch.NewObjectInfo | pystapler/dispatch.py:125-127 | `_ObjectInfo(obj)` fails exactly on a built-in type; otherwise it wraps the object with its class's map, reusing the cached one |
| Dispatch.ObjectInfo.constructor | pystapler/dispatch.py:125-127 | stores the object and the map built from its class |
| Dispatch.ObjectInfo.Dispatch | pystapler/dispatch.py:150-186 | the outcome is `Dispatched`: 404 for a missing or not-traversable member, else the traversal of the head segment (or `DEFAULT`); every map cached before the call is still cached, unchanged |
| Dispatch.Call | pystapler/dispatch.py:56-69 | `__call__` answers `Respond(root, request)`; every map cached before the request is still cached, unchanged |
| DispatchProperties.LookupsFollowPath | pystapler/dispatch.py:167-174 | the i-th key looked up is the i-th path segment, and `DEFAULT` once the segments run out |
| DispatchProperties.LookupsCountSteps | pystapler/dispatch.py:150-186 | the trace of looked-up keys follows the recursion of `dispatch`: at most one lookup per unit of the bound plus one, and exactly that many when the bound is reached |
| DispatchProperties.SlashRouteNeverLookedUp | pystapler/dispatch.py:332-336 | a route name containing `/` is never looked up, whatever the request path, so the docstring's `/something-completely-different` route is unreachable |
| DispatchProperties.RootDefaultNeverLookedUp | pystapler/dispatch.py:61-67 | the first lookup on the root is always a path segment, never `DEFAULT` (a root of built-in type looks up nothing) |
| DispatchProperties.SlashOnlyPathIsNotFound | pystapler/dispatch.py:61-67 | `GET /` is a 404 unless some root member is traversable as the empty string, even when the root has a default |
| DispatchProperties.NotFoundInvokesNothing | pystapler/dispatch.py:175-184 | a missing or non-traversable member answers 404 after one lookup, and no handler is called; an object of built-in type raises `TypeError` before any lookup |
| DispatchProperties.MissingParameterIsBadRequest | pystapler/dispatch.py:271-279 | a missing required parameter answers `BadRequest` naming the first missing one, and the method is not called |
| DispatchProperties.BoundCallContinues | pystapler/dispatch.py:289-297 | with all required parameters present: a callable result is the answer, a raise propagates, any other object is dispatched with the remaining segments |
| DispatchProperties.BuiltinResultRaises | pystapler/dispatch.py:114-119 | a handler result of built-in type that is not callable makes the traversal raise `TypeError` |
| DispatchProperties.DispatchedFuelMonotone | pystapler/dispatch.py:150-186 | an outcome reached within the recursion bound is the same under any larger bound |
| DispatchProperties.TraversedFuelMonotone | pystapler/dispatch.py:240-297 | the same for a traversal |
| DispatchProperties.KeywordHandlerSeesEverything | pystapler/dispatch.py:280-282 | a `**kwargs` handler receives every query key plus `request`, `form` and `self`, and `request` and `form` are the injected values |
| DispatchProperties.QueryParameterInjected | pystapler/dispatch.py:283-288 | a declared parameter named in the query receives the query value; an undeclared one is dropped |
| DispatchProperties.SelfIsTheObject | pystapler/dispatch.py:289 | a query parameter named `self` never displaces the object |
| DispatchProperties.SplitRootPath | pystapler/dispatch.py:61 | `'/'` splits into `['']` |
| DispatchProperties.SplitPathRoundTrip | pystapler/dispatch.py:61 | `/` followed by separator-free segments joined with `/` splits back into those segments |
| Scenarios.TestSpam | tests/dispatch_test.py:56-60 | `/spam` renders `spam` |
| Scenarios.TestHovercraft | tests/dispatch_test.py:67-71 | `/hovercraft` reaches `eggs` and renders `eggs` |
| Scenarios.TestEggs | tests/dispatch_test.py:62-65 | `/eggs` is a 404 |
| Scenarios.TestParrot | tests/dispatch_test.py:73-76 | the `BadRequest` that `parrot` raises is the response |
| Scenarios.TestXyzzy | tests/dispatch_test.py:78-81 | `/xyzzy` is a 404 |
| Scenarios.TestRequiredArg | tests/dispatch_test.py:83-86 | without `spam`, `/required_arg` is a 400 naming `spam` |
| Scenarios.TestDefaultArgs | tests/dispatch_test.py:88-92 | without `spam`, `/default_args` renders the default `spam!` |
| Scenarios.TestKeywordArgs | tests/dispatch_test.py:94-98 | `keyword_args` receives `request` among its keyword arguments |
| Scenarios.TestHello | tests/server_test.py:62-64 | without `name`, `/hello` answers `Hello, world!` |
| Scenarios.TestParameter | tests/server_test.py:66-69 | `/hello?name=Daniel` answers `Hello, Daniel!` |

## Left out

- The WSGI and HTTP plumbing is left out because it belongs to werkzeug: parsing the environ into a request, `@responder`, response rendering, and the status codes. An `HttpError` (its werkzeug class and description) and the rendered text stand for those responses.
- `StaplerRoot.config`, `test_client`, `main` and pystapler/response.py are left out because they are startup and I/O wrappers outside routing. `@plaintext` keeps a function's signature, so the scenarios use the undecorated signature.
- Logging is left out because it has no effect on routing. As a result `_MethodInfo.name` appears only through `MethodEntriesAreNamed`.
- `request.args` is modelled as a map from key to its first value, because a werkzeug `MultiDict` indexed by a key gives the first value.
- Function objects are values: a name, the `getargspec` fields the core reads, a code identity and the attribute dictionary. Decorators run before any other reference exists, so setting attributes in place is modelled as building the decorated value.
- `callable()` and `inspect.getargspec` are given as data. `callable` comes from the `Callable`/`NotCallable` member kind and the `CallResult` of `invoke`.
- Handler bodies are not interpreted. They become the `invoke` parameter, and a call whose keyword arguments do not fit the signature is whatever `invoke` says.
- Dispatch.Dispatched: `invoke` is a pure function of the method and its keyword arguments, so handlers that change their object between calls are not modelled. A default chain that such a handler ends in Python runs to `OutOfFuel` in the model.
- A class is its own `__dict__` in iteration order, with no base classes. `getattr` on the cache attribute can find a cache stored on a base class; that case is not modelled.
- The cache attribute `_pystapler_traversal_map` of every class is one `ClassAttributes` table.
- Dispatch.Dispatched: Python's recursion, and its `RecursionError` for an endless default chain, are replaced by a `fuel` bound. `OutOfFuel` marks the bound being reached, and `DispatchedFuelMonotone` shows that more fuel changes nothing once an answer is reached.
- Dispatch.MethodInfo.GetAttr: `assert not attribute.startswith('_')` is a precondition, not an `AssertionError` outcome. Only the internal calls with `traversable_as` and `default` occur.
- `_MethodInfo.argspec` and `required_args` are `cached_property`s. They are pure functions of the function object, so they are recomputed rather than cached.
- Scenarios: each test request is any request with the test's path, plus the stated condition on its query. A test's concrete query is one instance.
