/**
 * Properties of the dispatcher (pystapler/dispatch.py:61, 148-186, 271-297):
 * which keys a request consults, when a handler is or is not called, what
 * it is called with, and how the recursion bound behaves.
 */
module DispatchProperties {
  import opened Wrappers
  import opened PyStr
  import opened Routes
  import opened Request
  import opened Dispatch

  /** The keys that dispatching `segments` on `obj` looks up, in order (none on a built-in type). */
  ghost function Lookups(obj: PyObject, segments: seq<string>, params: map<string, Value>, invoke: Invoke, fuel: nat): seq<Key>
    decreases fuel, 1
  {
    if obj.cls.builtin then []
    else
      [StepKey(segments)] +
      match Lookup(BuildSpec(obj.cls.members), StepKey(segments))
      case Some(Method(f)) => TraversalLookups(f, obj, StepRest(segments), params, invoke, fuel)
      case _ => []
  }

  /** The keys looked up after traversing into `f`. */
  ghost function TraversalLookups(f: Function, obj: PyObject, extra: seq<string>, params: map<string, Value>, invoke: Invoke, fuel: nat): seq<Key>
    decreases fuel, 0
  {
    match RequiredArgs(f.argspec)
    case None => []
    case Some(required) =>
      if FirstMissing(required, params).Some? then []
      else
        match invoke(f, Kwargs(f.argspec, obj, params))
        case ObjectResult(result) => if fuel == 0 then [] else Lookups(result, extra, params, invoke, fuel - 1)
        case _ => []
  }

  /**
   * The dispatcher consumes the path one segment per step, in order, and
   * looks up `DEFAULT` only once every segment has been consumed.
   */
  lemma {:induction false} LookupsFollowPath(obj: PyObject, segments: seq<string>, params: map<string, Value>, invoke: Invoke, fuel: nat)
    ensures forall i | 0 <= i < |Lookups(obj, segments, params, invoke, fuel)| ::
      Lookups(obj, segments, params, invoke, fuel)[i] == if i < |segments| then Seg(segments[i]) else DefaultKey
    decreases fuel, 1
  {
    if !obj.cls.builtin {
      match Lookup(BuildSpec(obj.cls.members), StepKey(segments))
      case Some(Method(f)) =>
        var sub := TraversalLookups(f, obj, StepRest(segments), params, invoke, fuel);
        TraversalLookupsFollowPath(f, obj, StepRest(segments), params, invoke, fuel);
        KeysFollowPath(segments, sub);
      case _ =>
    }
  }

  /** The keys looked up after traversing into `f` follow the segments left over. */
  lemma {:induction false} TraversalLookupsFollowPath(f: Function, obj: PyObject, extra: seq<string>, params: map<string, Value>, invoke: Invoke, fuel: nat)
    ensures forall i | 0 <= i < |TraversalLookups(f, obj, extra, params, invoke, fuel)| ::
      TraversalLookups(f, obj, extra, params, invoke, fuel)[i] == if i < |extra| then Seg(extra[i]) else DefaultKey
    decreases fuel, 0
  {
    if RequiredArgs(f.argspec).Some? && FirstMissing(RequiredArgs(f.argspec).value, params).None? {
      match invoke(f, Kwargs(f.argspec, obj, params))
      case ObjectResult(result) =>
        if fuel > 0 {
          LookupsFollowPath(result, extra, params, invoke, fuel - 1);
        }
      case _ =>
    }
  }

  /**
   * `Lookups` walks the same recursion as `Dispatched`: at most one lookup
   * per unit of fuel plus one, and exactly that many when dispatch runs out
   * of fuel.
   */
  lemma {:induction false} LookupsCountSteps(obj: PyObject, segments: seq<string>, params: map<string, Value>, invoke: Invoke, fuel: nat)
    ensures |Lookups(obj, segments, params, invoke, fuel)| <= fuel + 1
    ensures Dispatched(obj, segments, params, invoke, fuel) == OutOfFuel ==> |Lookups(obj, segments, params, invoke, fuel)| == fuel + 1
    decreases fuel, 1
  {
    if !obj.cls.builtin {
      match Lookup(BuildSpec(obj.cls.members), StepKey(segments))
      case Some(Method(f)) =>
        TraversalLookupsCountSteps(f, obj, StepRest(segments), params, invoke, fuel);
      case _ =>
    }
  }

  /** The same count for the keys looked up after traversing into `f`. */
  lemma {:induction false} TraversalLookupsCountSteps(f: Function, obj: PyObject, extra: seq<string>, params: map<string, Value>, invoke: Invoke, fuel: nat)
    ensures |TraversalLookups(f, obj, extra, params, invoke, fuel)| <= fuel
    ensures Traversed(f, obj, extra, params, invoke, fuel) == OutOfFuel ==> |TraversalLookups(f, obj, extra, params, invoke, fuel)| == fuel
    decreases fuel, 0
  {
    if RequiredArgs(f.argspec).Some? && FirstMissing(RequiredArgs(f.argspec).value, params).None? {
      match invoke(f, Kwargs(f.argspec, obj, params))
      case ObjectResult(result) =>
        if fuel > 0 {
          LookupsCountSteps(result, extra, params, invoke, fuel - 1);
        }
      case _ =>
    }
  }

  /** A step's key in front of keys that follow the rest of the path follows the whole path. */
  lemma KeysFollowPath(segments: seq<string>, sub: seq<Key>)
    requires forall i | 0 <= i < |sub| :: sub[i] == if i < |StepRest(segments)| then Seg(StepRest(segments)[i]) else DefaultKey
    ensures forall i | 0 <= i < |[StepKey(segments)] + sub| ::
      ([StepKey(segments)] + sub)[i] == if i < |segments| then Seg(segments[i]) else DefaultKey
  {
    var trace := [StepKey(segments)] + sub;
    var rest := StepRest(segments);
    forall i | 1 <= i < |trace|
      ensures trace[i] == if i < |segments| then Seg(segments[i]) else DefaultKey
    {
      assert trace[i] == sub[i - 1];
      if |segments| > 0 { assert |rest| == |segments| - 1; if i < |segments| { assert rest[i - 1] == segments[i]; } }
    }
  }

  /**
   * A route whose name contains `/`, like `traversable('/something-completely-different')`,
   * is never looked up, whatever the request path.
   */
  lemma SlashRouteNeverLookedUp(root: PyObject, request: Request, invoke: Invoke, fuel: nat, name: string)
    requires '/' in name
    ensures Seg(name) !in Lookups(root, SplitPath(request.path), ParamsOf(request), invoke, fuel)
  {
    var segments := SplitPath(request.path);
    var trace := Lookups(root, segments, ParamsOf(request), invoke, fuel);
    LookupsFollowPath(root, segments, ParamsOf(request), invoke, fuel);
    forall i | 0 <= i < |trace|
      ensures trace[i] != Seg(name)
    {
      if i < |segments| {
        assert segments[i] in segments;
      }
    }
  }

  /**
   * A served request never looks up `DEFAULT` on the root: the split path
   * always has a first segment, possibly empty.
   */
  lemma RootDefaultNeverLookedUp(root: PyObject, request: Request, invoke: Invoke, fuel: nat)
    ensures root.cls.builtin <==> Lookups(root, SplitPath(request.path), ParamsOf(request), invoke, fuel) == []
    ensures !root.cls.builtin ==>
      Lookups(root, SplitPath(request.path), ParamsOf(request), invoke, fuel)[0] == Seg(SplitPath(request.path)[0])
  {
  }

  /**
   * So `GET /` answers 404 unless some member of the root class is
   * traversable as the empty string, even when the root has a `@default`
   * method.
   */
  lemma SlashOnlyPathIsNotFound(root: PyObject, request: Request, invoke: Invoke, fuel: nat)
    requires LStrip(request.path, '/') == []
    requires Seg("") !in BuildSpec(root.cls.members)
    ensures Respond(root, request, invoke, fuel) ==
      if root.cls.builtin then Raised(OtherException("TypeError")) else Returned(ErrorPage(NotFound(None)))
  {
    var segments := SplitPath(request.path);
    assert segments == Split([], '/') == [""];
    NotFoundInvokesNothing(root, segments, ParamsOf(request), invoke, fuel);
  }

  /**
   * A missing or non-traversable member answers `NotFound`, looks up
   * nothing more, and calls no handler: the outcome does not depend on
   * `invoke` or on the recursion bound. An object of a built-in type raises
   * `TypeError` before any lookup.
   */
  lemma NotFoundInvokesNothing(obj: PyObject, segments: seq<string>, params: map<string, Value>, invoke: Invoke, fuel: nat)
    requires !(Lookup(BuildSpec(obj.cls.members), StepKey(segments)).Some? && Lookup(BuildSpec(obj.cls.members), StepKey(segments)).value.Method?)
    ensures Dispatched(obj, segments, params, invoke, fuel) ==
      if obj.cls.builtin then Raised(OtherException("TypeError")) else Returned(ErrorPage(NotFound(None)))
    ensures Lookups(obj, segments, params, invoke, fuel) == if obj.cls.builtin then [] else [StepKey(segments)]
  {
  }

  /**
   * A required parameter missing from the request answers `BadRequest`
   * naming the first missing one in declaration order; the method is not
   * called (the outcome does not depend on `invoke`).
   */
  lemma MissingParameterIsBadRequest(f: Function, obj: PyObject, extra: seq<string>, params: map<string, Value>, invoke: Invoke, fuel: nat, i: nat)
    requires RequiredArgs(f.argspec).Some?
    requires i < |RequiredArgs(f.argspec).value|
    requires RequiredArgs(f.argspec).value[i] !in params
    requires forall j | 0 <= j < i :: RequiredArgs(f.argspec).value[j] in params
    ensures Traversed(f, obj, extra, params, invoke, fuel)
      == Raised(HttpException(BadRequest(Some(MissingParameterMessage(RequiredArgs(f.argspec).value[i])))))
  {
    var required := RequiredArgs(f.argspec).value;
    assert required[i] in required;
    var missing := FirstMissing(required, params);
    var k :| 0 <= k < |required| && required[k] == missing.value && missing.value !in params
      && forall j | 0 <= j < k :: required[j] in params;
    assert k == i;
  }

  /**
   * With every required parameter present the method is called with
   * `Kwargs`: a callable result is the answer (the remaining segments are
   * dropped), a raise propagates, and any other object is dispatched with
   * the remaining segments and the same parameters.
   */
  lemma BoundCallContinues(f: Function, obj: PyObject, extra: seq<string>, params: map<string, Value>, invoke: Invoke, fuel: nat)
    requires RequiredArgs(f.argspec).Some?
    requires forall a | a in RequiredArgs(f.argspec).value :: a in params
    ensures invoke(f, Kwargs(f.argspec, obj, params)).CallableResult? ==>
      Traversed(f, obj, extra, params, invoke, fuel) == Returned(invoke(f, Kwargs(f.argspec, obj, params)).app)
    ensures invoke(f, Kwargs(f.argspec, obj, params)).Raises? ==>
      Traversed(f, obj, extra, params, invoke, fuel) == Raised(invoke(f, Kwargs(f.argspec, obj, params)).ex)
    ensures invoke(f, Kwargs(f.argspec, obj, params)).ObjectResult? ==>
      Traversed(f, obj, extra, params, invoke, fuel + 1)
        == Dispatched(invoke(f, Kwargs(f.argspec, obj, params)).obj, extra, params, invoke, fuel)
  {
  }

  /**
   * A handler returning a non-callable object of a built-in type (`None`, a
   * plain `str`) makes the request fail with `TypeError`, which `__call__`
   * does not turn into a response.
   */
  lemma BuiltinResultRaises(f: Function, obj: PyObject, extra: seq<string>, params: map<string, Value>, invoke: Invoke, fuel: nat)
    requires RequiredArgs(f.argspec).Some?
    requires forall a | a in RequiredArgs(f.argspec).value :: a in params
    requires invoke(f, Kwargs(f.argspec, obj, params)).ObjectResult?
    requires invoke(f, Kwargs(f.argspec, obj, params)).obj.cls.builtin
    ensures Traversed(f, obj, extra, params, invoke, fuel + 1) == Raised(OtherException("TypeError"))
  {
    BoundCallContinues(f, obj, extra, params, invoke, fuel);
  }

  /** More fuel never changes an outcome that was reached without running out. */
  lemma {:induction false} DispatchedFuelMonotone(obj: PyObject, segments: seq<string>, params: map<string, Value>, invoke: Invoke, fuel: nat, more: nat)
    requires fuel <= more
    requires Dispatched(obj, segments, params, invoke, fuel) != OutOfFuel
    ensures Dispatched(obj, segments, params, invoke, more) == Dispatched(obj, segments, params, invoke, fuel)
    decreases fuel, 1
  {
    if obj.cls.builtin {
      return;
    }
    match Lookup(BuildSpec(obj.cls.members), StepKey(segments))
    case Some(Method(f)) => TraversedFuelMonotone(f, obj, StepRest(segments), params, invoke, fuel, more);
    case _ =>
  }

  lemma {:induction false} TraversedFuelMonotone(f: Function, obj: PyObject, extra: seq<string>, params: map<string, Value>, invoke: Invoke, fuel: nat, more: nat)
    requires fuel <= more
    requires Traversed(f, obj, extra, params, invoke, fuel) != OutOfFuel
    ensures Traversed(f, obj, extra, params, invoke, more) == Traversed(f, obj, extra, params, invoke, fuel)
    decreases fuel, 0
  {
    if RequiredArgs(f.argspec).Some? && FirstMissing(RequiredArgs(f.argspec).value, params).None? {
      match invoke(f, Kwargs(f.argspec, obj, params))
      case ObjectResult(result) =>
        assert Traversed(f, obj, extra, params, invoke, fuel) == Dispatched(result, extra, params, invoke, fuel - 1);
        assert Traversed(f, obj, extra, params, invoke, more) == Dispatched(result, extra, params, invoke, more - 1);
        DispatchedFuelMonotone(result, extra, params, invoke, fuel - 1, more - 1);
      case _ =>
    }
  }

  /**
   * A handler taking `**kwargs` receives every request parameter, including
   * the injected `request` and `form`, plus `self`.
   */
  lemma KeywordHandlerSeesEverything(spec: ArgSpec, obj: PyObject, request: Request)
    requires spec.keywords.Some?
    ensures forall k :: k in Kwargs(spec, obj, ParamsOf(request)) <==> k in request.args || k in {"request", "form", "self"}
    ensures Kwargs(spec, obj, ParamsOf(request))["request"] == Param(RawRequest(request))
    ensures Kwargs(spec, obj, ParamsOf(request))["form"] == Param(Form(request.form))
  {
  }

  /**
   * A declared parameter named in the query string receives the query
   * value (`/hello?name=Daniel` calls `hello(self, name='Daniel')`); an
   * undeclared one is dropped.
   */
  lemma QueryParameterInjected(spec: ArgSpec, obj: PyObject, request: Request, name: string)
    requires name in request.args && name != "request" && name != "form" && name != "self"
    ensures name in spec.args || spec.keywords.Some? ==>
      Kwargs(spec, obj, ParamsOf(request))[name] == Param(Text(request.args[name]))
    ensures name !in spec.args && spec.keywords.None? ==> name !in Kwargs(spec, obj, ParamsOf(request))
  {
  }

  /** A query parameter named `self` never displaces the object. */
  lemma SelfIsTheObject(spec: ArgSpec, obj: PyObject, request: Request)
    ensures Kwargs(spec, obj, ParamsOf(request))["self"] == Instance(obj)
  {
  }

  /** `'/'.lstrip('/').split('/')` is `['']`, not an empty list. */
  lemma SplitRootPath()
    ensures SplitPath("/") == [""]
  {
  }

  /**
   * Segments without `/` (the first one also not empty), written after a
   * leading `/`, split back into the same segments.
   */
  lemma {:induction false} SplitPathRoundTrip(segments: seq<string>)
    requires |segments| >= 1 && segments[0] != []
    requires forall s | s in segments :: '/' !in s
    ensures SplitPath("/" + Join(segments, '/')) == segments
  {
    var joined := Join(segments, '/');
    JoinStartsWithFirst(segments, '/');
    assert joined[0] == segments[0][0] && segments[0][0] in segments[0];
    assert LStrip(joined, '/') == joined;
    assert ("/" + joined)[1..] == joined;
    assert LStrip("/" + joined, '/') == joined;
    SplitJoin(segments, '/');
  }

  lemma {:induction false} JoinStartsWithFirst(parts: seq<string>, sep: char)
    requires |parts| >= 1
    ensures |Join(parts, sep)| >= |parts[0]| && Join(parts, sep)[..|parts[0]|] == parts[0]
  {
    if |parts| > 1 {
      JoinStartsWithFirst(parts[1..], sep);
    }
  }
}
