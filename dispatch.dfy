/**
 * The request dispatcher of pystapler/dispatch.py: the per-class cache of
 * traversal maps, the wrappers `_MethodInfo` and `_ObjectInfo`, the
 * parameter binder inside `_MethodInfo.traverse`, and the path handling of
 * `StaplerRoot.__call__`.
 *
 * The dispatch recursion is modelled twice: as the pure functions
 * `Dispatched`/`Traversed` (the specification), and as the methods
 * `ObjectInfo.Dispatch`/`MethodInfo.Traverse`, which go through the cache
 * as the source does and are proved to compute the same outcome.
 */
module Dispatch {
  import opened Wrappers
  import opened PyStr
  import opened Routes
  import opened Request

  /**
   * A Python class, identified by its name and the members declared directly
   * on it (`cls.__dict__`, in iteration order). `builtin` marks a built-in
   * type such as `str` or `NoneType`, on which `setattr` raises `TypeError`.
   */
  datatype PyClass = PyClass(name: string, members: seq<Member>, builtin: bool)

  /** An application object: its type and an identity. */
  datatype PyObject = PyObject(cls: PyClass, id: nat)

  /**
   * The attribute `_pystapler_traversal_map` of every class object, as one
   * table from class to the map cached on it (a class without the attribute
   * is absent).
   */
  class ClassAttributes {
    var traversalMaps: map<PyClass, map<Key, Entry<MethodInfo>>>

    /** A cached map is the map built from its class's members, and only classes that accept attributes carry one. */
    ghost predicate Valid()
      reads this
    {
      forall cls | cls in traversalMaps :: !cls.builtin && Shape(traversalMaps[cls]) == BuildSpec(cls.members)
    }

    /** Before any dispatch no class carries a cached map. */
    constructor()
      ensures traversalMaps == map[] && Valid()
    {
      traversalMaps := map[];
    }
  }

  /** The traversal map seen through the functions its `_MethodInfo` entries wrap. */
  function Shape(traversalMap: map<Key, Entry<MethodInfo>>): map<Key, Entry<Function>>
  {
    map k | k in traversalMap :: ShapeOf(traversalMap[k])
  }

  function ShapeOf(entry: Entry<MethodInfo>): Entry<Function>
  {
    match entry
    case Method(info) => Method(info.func)
    case NotTraversable => NotTraversable
  }

  lemma ShapeUpdate(traversalMap: map<Key, Entry<MethodInfo>>, key: Key, entry: Entry<MethodInfo>)
    ensures Shape(traversalMap[key := entry]) == Shape(traversalMap)[key := ShapeOf(entry)]
  {
  }

  lemma LookupShape(traversalMap: map<Key, Entry<MethodInfo>>, key: Key)
    ensures Lookup(traversalMap, key).None? <==> Lookup(Shape(traversalMap), key).None?
    ensures Lookup(traversalMap, key) == Some(NotTraversable) <==> Lookup(Shape(traversalMap), key) == Some(NotTraversable)
    ensures Lookup(traversalMap, key).Some? && Lookup(traversalMap, key).value.Method? ==>
      Lookup(Shape(traversalMap), key) == Some(Method(Lookup(traversalMap, key).value.info.func))
  {
  }

  /**
   * A werkzeug `HTTPException` and its optional description: `NotFound`
   * (404) and `BadRequest` (400), which the dispatcher itself produces, or
   * any other subclass (`Forbidden`, `Unauthorized`, a redirect, ...) named
   * by its class.
   */
  datatype HttpError =
    | NotFound(description: Option<string>)
    | BadRequest(description: Option<string>)
    | OtherHttpError(name: string, description: Option<string>)

  /** A raised exception: an HTTP exception, or any other (named by its type). */
  datatype Exception = HttpException(error: HttpError) | OtherException(name: string)

  /**
   * A callable the dispatcher hands back as the response: what a handler
   * rendered, or an HTTP exception (werkzeug's exceptions are WSGI apps).
   */
  datatype App = Rendered(body: string) | ErrorPage(error: HttpError)

  /**
   * What calling a handler method does: return something `callable()`
   * holds of, return any other object, or raise.
   */
  datatype CallResult = CallableResult(app: App) | ObjectResult(obj: PyObject) | Raises(ex: Exception)

  /** A keyword argument passed to a handler: a request parameter, or the object bound to `self`. */
  datatype Arg = Param(value: Value) | Instance(obj: PyObject)

  /** The behaviour of handler code, which the model does not interpret. */
  type Invoke = (Function, map<string, Arg>) -> CallResult

  /** How a dispatch ends: a response, a propagating exception, or the recursion bound reached. */
  datatype Outcome = Returned(app: App) | Raised(ex: Exception) | OutOfFuel

  /** The message of the `BadRequest` raised for a missing parameter. */
  function MissingParameterMessage(arg: string): string
  {
    "Required parameter \"" + arg + "\" not provided"
  }

  /** The first required argument, in declaration order, that `params` lacks. */
  function FirstMissing<V>(required: seq<string>, params: map<string, V>): (missing: Option<string>)
    ensures missing.None? <==> forall a | a in required :: a in params
    ensures missing.Some? ==>
      exists i | 0 <= i < |required| ::
        && required[i] == missing.value && missing.value !in params
        && forall j | 0 <= j < i :: required[j] in params
  {
    if required == [] then None
    else if required[0] !in params then Some(required[0])
    else
      var rest := FirstMissing(required[1..], params);
      assert rest.Some? ==> exists i | 0 <= i < |required| ::
        && required[i] == rest.value && rest.value !in params
        && forall j | 0 <= j < i :: required[j] in params
      by {
        if rest.Some? {
          var i :| 0 <= i < |required| - 1 && required[1..][i] == rest.value && rest.value !in params
            && forall j | 0 <= j < i :: required[1..][j] in params;
          assert forall j | 0 <= j < i + 1 :: required[j] in params by {
            forall j | 0 <= j < i + 1 ensures required[j] in params {
              if j > 0 { assert required[j] == required[1..][j - 1]; }
            }
          }
        }
      }
      assert (forall a | a in required[1..] :: a in params) ==> forall a | a in required :: a in params by {
        if forall a | a in required[1..] :: a in params {
          forall a | a in required ensures a in params {
            var k :| 0 <= k < |required| && required[k] == a;
            if k > 0 { assert required[1..][k - 1] == a; }
          }
        }
      }
      rest
  }

  /**
   * The keyword arguments a handler is called with: every request parameter
   * when it takes `**kwargs`, else only the declared parameters that are
   * present; in both cases `self` is bound to the object.
   */
  function Kwargs(spec: ArgSpec, obj: PyObject, params: map<string, Value>): (kwargs: map<string, Arg>)
    ensures forall k :: k in kwargs <==> k == "self" || (k in params && (spec.keywords.Some? || k in spec.args))
    ensures kwargs["self"] == Instance(obj)
    ensures forall k | k in kwargs && k != "self" :: k in params && kwargs[k] == Param(params[k])
  {
    var passed := if spec.keywords.Some? then map k | k in params :: Param(params[k])
                  else map k | k in spec.args && k in params :: Param(params[k]);
    passed["self" := Instance(obj)]
  }

  /** The loop of `traverse` over `required_args`: stop at the first one missing. */
  method FindMissing(required: seq<string>, params: map<string, Value>) returns (missing: Option<string>)
    ensures missing == FirstMissing(required, params)
  {
    for i := 0 to |required|
      invariant FirstMissing(required, params) == FirstMissing(required[i..], params)
    {
      assert required[i..][1..] == required[i + 1..];
      if required[i] !in params {
        return Some(required[i]);
      }
    }
    return None;
  }

  /** Lines 280-289 of `traverse`: build the keyword arguments, then bind `self`. */
  method BuildKwargs(spec: ArgSpec, obj: PyObject, params: map<string, Value>) returns (kwargs: map<string, Arg>)
    ensures kwargs == Kwargs(spec, obj, params)
  {
    if spec.keywords.Some? {
      kwargs := map k | k in params :: Param(params[k]);
    } else {
      kwargs := map[];
      for i := 0 to |spec.args|
        invariant kwargs == map k | k in spec.args[..i] && k in params :: Param(params[k])
      {
        var key := spec.args[i];
        assert spec.args[..i + 1] == spec.args[..i] + [key];
        if key in params {
          kwargs := kwargs[key := Param(params[key])];
        }
      }
      assert spec.args[..|spec.args|] == spec.args;
    }
    kwargs := kwargs["self" := Instance(obj)];
  }

  /** The key a dispatch step looks up: the head segment, or `DEFAULT` when none remain. */
  function StepKey(segments: seq<string>): Key
  {
    if |segments| > 0 then Seg(segments[0]) else DefaultKey
  }

  /** The segments a dispatch step passes on. */
  function StepRest(segments: seq<string>): seq<string>
  {
    if |segments| > 0 then segments[1..] else []
  }

  /**
   * `_ObjectInfo(obj).dispatch(segments, params)`: the outcome of one
   * dispatch step on `obj`, with `fuel` bounding the number of times a
   * handler's non-callable result is dispatched further. Wrapping an object
   * of a built-in type raises the `TypeError` of caching its map.
   */
  function Dispatched(obj: PyObject, segments: seq<string>, params: map<string, Value>, invoke: Invoke, fuel: nat): Outcome
    decreases fuel, 1
  {
    if obj.cls.builtin then Raised(OtherException("TypeError"))
    else
      match Lookup(BuildSpec(obj.cls.members), StepKey(segments))
      case None => Returned(ErrorPage(NotFound(None)))
      case Some(NotTraversable) => Returned(ErrorPage(NotFound(None)))
      case Some(Method(f)) => Traversed(f, obj, StepRest(segments), params, invoke, fuel)
  }

  /** `_MethodInfo(f).traverse(obj, extra, params)`. */
  function Traversed(f: Function, obj: PyObject, extra: seq<string>, params: map<string, Value>, invoke: Invoke, fuel: nat): Outcome
    decreases fuel, 0
  {
    match RequiredArgs(f.argspec)
    case None => Raised(OtherException("IndexError"))
    case Some(required) =>
      match FirstMissing(required, params)
      case Some(arg) => Raised(HttpException(BadRequest(Some(MissingParameterMessage(arg)))))
      case None =>
        match invoke(f, Kwargs(f.argspec, obj, params))
        case CallableResult(app) => Returned(app)
        case Raises(ex) => Raised(ex)
        case ObjectResult(result) =>
          if fuel == 0 then OutOfFuel else Dispatched(result, extra, params, invoke, fuel - 1)
  }

  /** `request.path.lstrip('/').split('/')`. */
  function SplitPath(path: string): (segments: seq<string>)
    ensures |segments| >= 1
    ensures forall s | s in segments :: '/' !in s
    ensures Join(segments, '/') == LStrip(path, '/')
  {
    JoinSplit(LStrip(path, '/'), '/');
    Split(LStrip(path, '/'), '/')
  }

  /**
   * `StaplerRoot.__call__` once the request is parsed: dispatch the split
   * path with the request's parameters, and turn an HTTP exception that
   * escapes into the response it renders.
   */
  function Respond(root: PyObject, request: Request, invoke: Invoke, fuel: nat): (r: Outcome)
    ensures !(r.Raised? && r.ex.HttpException?)
    ensures var d := Dispatched(root, SplitPath(request.path), ParamsOf(request), invoke, fuel);
      && (d.Raised? && d.ex.HttpException? ==> r == Returned(ErrorPage(d.ex.error)))
      && (!(d.Raised? && d.ex.HttpException?) ==> r == d)
  {
    match Dispatched(root, SplitPath(request.path), ParamsOf(request), invoke, fuel)
    case Raised(HttpException(error)) => Returned(ErrorPage(error))
    case other => other
  }

  /** `_MethodInfo`: wraps a method and memoizes its prefixed attributes. */
  class MethodInfo {
    const func: Function
    var attributes: map<string, Option<Attr>>

    /** Every memoized attribute is the function's current one. */
    ghost predicate Valid()
      reads this
    {
      forall a | a in attributes :: attributes[a] == AttrOf(func, a)
    }

    constructor(func: Function)
      ensures this.func == func && attributes == map[] && Valid()
    {
      this.func := func;
      attributes := map[];
    }

    /** `__getattr__`: `getattr(method, PREFIX + attribute, None)`, remembered once read. */
    method GetAttr(attribute: string) returns (value: Option<Attr>)
      requires Valid()
      requires attribute == [] || attribute[0] != '_'
      modifies this
      ensures Valid()
      ensures value == AttrOf(func, attribute)
      ensures attributes == old(attributes)[attribute := value]
    {
      if attribute in attributes {
        return attributes[attribute];
      }
      var qualifiedAttribute := PREFIX + attribute;
      value := if qualifiedAttribute in func.attributes then Some(func.attributes[qualifiedAttribute]) else None;
      attributes := attributes[attribute := value];
    }

    /**
     * `traverse`: check the required parameters, call the method with the
     * bound keyword arguments, and either return its callable result or
     * dispatch the remaining segments on the object it returned.
     */
    method Traverse(obj: PyObject, extraPathSegments: seq<string>, requestParams: map<string, Value>,
                    invoke: Invoke, fuel: nat, attributes: ClassAttributes) returns (r: Outcome)
      requires attributes.Valid()
      modifies attributes
      ensures attributes.Valid()
      ensures r == Traversed(func, obj, extraPathSegments, requestParams, invoke, fuel)
      ensures Cached(old(attributes.traversalMaps), attributes.traversalMaps)
      decreases fuel, 0
    {
      var requiredArgs := RequiredArgs(func.argspec);
      if requiredArgs.None? {
        return Raised(OtherException("IndexError"));
      }
      var missing := FindMissing(requiredArgs.value, requestParams);
      if missing.Some? {
        return Raised(HttpException(BadRequest(Some(MissingParameterMessage(missing.value)))));
      }
      var kwargs := BuildKwargs(func.argspec, obj, requestParams);
      var result := invoke(func, kwargs);
      match result
      case CallableResult(app) =>
        r := Returned(app);
      case Raises(ex) =>
        r := Raised(ex);
      case ObjectResult(next) =>
        if fuel == 0 {
          r := OutOfFuel;
        } else {
          var objectInfo := NewObjectInfo(next, attributes);
          if objectInfo.None? {
            r := Raised(OtherException("TypeError"));
          } else {
            ghost var between := attributes.traversalMaps;
            r := objectInfo.value.Dispatch(extraPathSegments, requestParams, invoke, fuel - 1, attributes);
            CachedTransitive(old(attributes.traversalMaps), between, attributes.traversalMaps);
          }
        }
    }
  }

  /**
   * `_build_traversal_map(cls)`: one pass over the class's own members,
   * wrapping each callable in a fresh `MethodInfo`.
   */
  method BuildTraversalMap(cls: PyClass) returns (result: map<Key, Entry<MethodInfo>>)
    ensures Shape(result) == BuildSpec(cls.members)
  {
    result := map[];
    for i := 0 to |cls.members|
      invariant Shape(result) == BuildSpec(cls.members[..i])
    {
      var member := cls.members[i];
      BuildSpecStep(cls.members, i);
      if member.value.Callable? {
        var methodInfo := new MethodInfo(member.value.f);
        var traversableAs := methodInfo.GetAttr("traversable_as");
        if traversableAs.Some? {
          ShapeUpdate(result, KeyOf(traversableAs.value), Method(methodInfo));
          result := result[KeyOf(traversableAs.value) := Method(methodInfo)];
          continue;
        }
        var isDefault := methodInfo.GetAttr("default");
        if Truthy(isDefault) {
          ShapeUpdate(result, DefaultKey, Method(methodInfo));
          result := result[DefaultKey := Method(methodInfo)];
          continue;
        }
      }
      ShapeUpdate(result, Seg(member.name), NotTraversable);
      result := result[Seg(member.name) := NotTraversable];
    }
    assert cls.members[..|cls.members|] == cls.members;
  }

  /** Every map cached in `before` is still cached, unchanged, in `after`. */
  ghost predicate Cached(before: map<PyClass, map<Key, Entry<MethodInfo>>>, after: map<PyClass, map<Key, Entry<MethodInfo>>>)
  {
    forall c | c in before :: c in after && after[c] == before[c]
  }

  lemma CachedTransitive(a: map<PyClass, map<Key, Entry<MethodInfo>>>, b: map<PyClass, map<Key, Entry<MethodInfo>>>,
                         c: map<PyClass, map<Key, Entry<MethodInfo>>>)
    requires Cached(a, b) && Cached(b, c)
    ensures Cached(a, c)
  {
  }

  /**
   * `_get_traversal_map(obj)`: the map cached on the object's class, built
   * and stored on first use; once stored it is returned as it is. On a
   * built-in type the `setattr` raises `TypeError` (`None`) and nothing is
   * stored.
   */
  method GetTraversalMap(obj: PyObject, attributes: ClassAttributes) returns (traversalMap: Option<map<Key, Entry<MethodInfo>>>)
    requires attributes.Valid()
    modifies attributes
    ensures attributes.Valid()
    ensures traversalMap.None? <==> obj.cls.builtin
    ensures traversalMap.Some? ==> Shape(traversalMap.value) == BuildSpec(obj.cls.members)
    ensures attributes.traversalMaps ==
      if traversalMap.None? then old(attributes.traversalMaps) else old(attributes.traversalMaps)[obj.cls := traversalMap.value]
    ensures obj.cls in old(attributes.traversalMaps) ==> traversalMap == Some(old(attributes.traversalMaps)[obj.cls])
  {
    var cls := obj.cls;
    if cls !in attributes.traversalMaps {
      var built := BuildTraversalMap(cls);
      if cls.builtin {
        return None;
      }
      attributes.traversalMaps := attributes.traversalMaps[cls := built];
      traversalMap := Some(built);
    } else {
      traversalMap := Some(attributes.traversalMaps[cls]);
    }
  }

  /**
   * `_ObjectInfo(obj)`: fetch the class's traversal map and wrap the object
   * with it; `None` when fetching the map raises `TypeError`.
   */
  method NewObjectInfo(obj: PyObject, attributes: ClassAttributes) returns (objectInfo: Option<ObjectInfo>)
    requires attributes.Valid()
    modifies attributes
    ensures attributes.Valid()
    ensures objectInfo.None? <==> obj.cls.builtin
    ensures objectInfo.Some? ==> fresh(objectInfo.value) && objectInfo.value.obj == obj && objectInfo.value.Valid()
    ensures objectInfo.Some? ==> attributes.traversalMaps == old(attributes.traversalMaps)[obj.cls := objectInfo.value.traversalMap]
    ensures objectInfo.None? ==> attributes.traversalMaps == old(attributes.traversalMaps)
    ensures Cached(old(attributes.traversalMaps), attributes.traversalMaps)
    ensures objectInfo.Some? && obj.cls in old(attributes.traversalMaps) ==>
      objectInfo.value.traversalMap == old(attributes.traversalMaps)[obj.cls]
  {
    var traversalMap := GetTraversalMap(obj, attributes);
    if traversalMap.None? {
      return None;
    }
    var info := new ObjectInfo(obj, traversalMap.value);
    return Some(info);
  }

  /** `_ObjectInfo`: an object together with its class's traversal map. */
  class ObjectInfo {
    const obj: PyObject
    const traversalMap: map<Key, Entry<MethodInfo>>

    /** The map is the one built from the object's class, which accepts attributes. */
    ghost predicate Valid()
    {
      !obj.cls.builtin && Shape(traversalMap) == BuildSpec(obj.cls.members)
    }

    /** The assignments of `__init__`, once `_get_traversal_map` has returned. */
    constructor(obj: PyObject, traversalMap: map<Key, Entry<MethodInfo>>)
      requires !obj.cls.builtin && Shape(traversalMap) == BuildSpec(obj.cls.members)
      ensures this.obj == obj && this.traversalMap == traversalMap && Valid()
    {
      this.obj := obj;
      this.traversalMap := traversalMap;
    }

    /** `lookup(member_name)`: the entry under the key, `None` meaning `NOT_FOUND`. */
    function LookupMember(memberName: Key): (member: Option<Entry<MethodInfo>>)
      ensures member.None? <==> memberName !in traversalMap
      ensures member.Some? ==> member.value == traversalMap[memberName]
    {
      Lookup(traversalMap, memberName)
    }

    /**
     * `dispatch`: look up the head segment (or `DEFAULT`), answer `NotFound`
     * for a missing or non-traversable member, else traverse the method.
     */
    method Dispatch(pathSegments: seq<string>, requestParams: map<string, Value>,
                    invoke: Invoke, fuel: nat, attributes: ClassAttributes) returns (r: Outcome)
      requires Valid()
      requires attributes.Valid()
      modifies attributes
      ensures attributes.Valid()
      ensures r == Dispatched(obj, pathSegments, requestParams, invoke, fuel)
      ensures Cached(old(attributes.traversalMaps), attributes.traversalMaps)
      decreases fuel, 1
    {
      var member: Option<Entry<MethodInfo>>;
      var extraPathSegments: seq<string>;
      if |pathSegments| > 0 {
        extraPathSegments := pathSegments[1..];
        member := LookupMember(Seg(pathSegments[0]));
      } else {
        extraPathSegments := [];
        member := LookupMember(DefaultKey);
      }
      LookupShape(traversalMap, StepKey(pathSegments));
      match member
      case None =>
        r := Returned(ErrorPage(NotFound(None)));
      case Some(NotTraversable) =>
        r := Returned(ErrorPage(NotFound(None)));
      case Some(Method(methodInfo)) =>
        r := methodInfo.Traverse(obj, extraPathSegments, requestParams, invoke, fuel, attributes);
    }
  }

  /**
   * `StaplerRoot.__call__`: split the path, build the request parameters,
   * dispatch on the root, and render an escaping HTTP exception.
   */
  method Call(root: PyObject, request: Request, invoke: Invoke, fuel: nat, attributes: ClassAttributes) returns (r: Outcome)
    requires attributes.Valid()
    modifies attributes
    ensures attributes.Valid()
    ensures r == Respond(root, request, invoke, fuel)
    ensures Cached(old(attributes.traversalMaps), attributes.traversalMaps)
  {
    var pathSegments := Split(LStrip(request.path, '/'), '/');
    var requestParams := NewRequestParams(request);
    var objectInfo := NewObjectInfo(root, attributes);
    if objectInfo.None? {
      return Raised(OtherException("TypeError"));
    }
    r := objectInfo.value.Dispatch(pathSegments, requestParams, invoke, fuel, attributes);
    if r.Raised? && r.ex.HttpException? {
      r := Returned(ErrorPage(r.ex.error));
    }
  }
}
