/**
 * The applications of tests/dispatch_test.py (a `Root` with seven methods
 * and a `Renderable` whose `@default` method renders its text) and of
 * tests/server_test.py (a `Root` whose `hello` greets `name`), and the
 * answer the dispatcher gives to each test's `GET`, whatever else the
 * query string holds.
 */
module Scenarios {
  import opened Wrappers
  import opened Routes
  import opened Request
  import opened Dispatch
  import opened DispatchProperties

  /** An undecorated function taking `args`, the last `defaults` of them defaulted. */
  function Plain(name: string, args: seq<string>, defaults: nat, keywords: Option<string>, code: nat): Function
  {
    Function(name, ArgSpec(args, keywords, defaults), code, map[])
  }

  /** A function carrying one pystapler attribute, as a decorator leaves it. */
  function Marked(f: Function, attribute: string, value: Attr): Function
  {
    f.(attributes := map[PREFIX + attribute := value])
  }

  /** Applying a decorator to an undecorated function gives `Marked`. */
  lemma DecoratorMarks(f: Function, attribute: string, value: Attr)
    requires f.attributes == map[]
    ensures WithAttributes(f, map[attribute := value]) == Marked(f, attribute, value)
  {
    var empty: map<string, Attr> := map[];
    assert Qualified(empty) == map[];
    QualifiedUpdate(empty, attribute, value);
    assert empty[attribute := value] == map[attribute := value];
  }

  /** A function carrying one pystapler attribute answers `None` for every other. */
  lemma SingleAttr(f: Function, attribute: string, value: Attr, b: string)
    requires f.attributes == map[PREFIX + attribute := value]
    ensures AttrOf(f, b) == if b == attribute then Some(value) else None
  {
    if b != attribute {
      assert (PREFIX + b)[|PREFIX|..] == b;
    }
  }

  /** A member marked traversable as `route` writes its method under `Seg(route)`. */
  lemma RoutedMember(m: Member, route: string)
    requires m.value.Callable? && m.value.f.attributes == map[PREFIX + "traversable_as" := Str(route)]
    ensures KeyOfMember(m) == Seg(route) && EntryOfMember(m) == Method(m.value.f)
  {
    SingleAttr(m.value.f, "traversable_as", Str(route), "traversable_as");
  }

  /** A member marked only `@default` writes its method under `DEFAULT`. */
  lemma DefaultMember(m: Member)
    requires m.value.Callable? && m.value.f.attributes == map[PREFIX + "default" := Bool(true)]
    ensures KeyOfMember(m) == DefaultKey && EntryOfMember(m) == Method(m.value.f)
  {
    SingleAttr(m.value.f, "default", Bool(true), "traversable_as");
    SingleAttr(m.value.f, "default", Bool(true), "default");
  }

  function Spam(): Function { Marked(Plain("spam", ["self"], 0, None, 1), "traversable_as", Str("spam")) }
  function Eggs(): Function { Marked(Plain("eggs", ["self"], 0, None, 2), "traversable_as", Str("hovercraft")) }
  function Parrot(): Function { Marked(Plain("parrot", ["self"], 0, None, 3), "traversable_as", Str("parrot")) }
  function Xyzzy(): Function { Plain("xyzzy", ["self"], 0, None, 4) }
  function RequiredArg(): Function
  {
    Marked(Plain("required_arg", ["self", "spam"], 0, None, 5), "traversable_as", Str("required_arg"))
  }
  function DefaultArgs(): Function
  {
    Marked(Plain("default_args", ["self", "spam"], 1, None, 6), "traversable_as", Str("default_args"))
  }
  function KeywordArgs(): Function
  {
    Marked(Plain("keyword_args", ["self"], 0, Some("kwargs"), 7), "traversable_as", Str("keyword_args"))
  }

  /** `Renderable.render`: `@default` over `@plaintext`, which keeps the signature. */
  function Render(): Function { Marked(Plain("render", ["self"], 0, None, 8), "default", Bool(true)) }

  /** `Root.__dict__`, in definition order. */
  function RootClass(): PyClass
  {
    PyClass("Root", [
      Member("__module__", NotCallable),
      Member("spam", Callable(Spam())),
      Member("eggs", Callable(Eggs())),
      Member("parrot", Callable(Parrot())),
      Member("xyzzy", Callable(Xyzzy())),
      Member("required_arg", Callable(RequiredArg())),
      Member("default_args", Callable(DefaultArgs())),
      Member("keyword_args", Callable(KeywordArgs())),
      Member("__doc__", NotCallable)],
      false)
  }

  /** `Renderable.__dict__`. */
  function RenderableClass(): PyClass
  {
    PyClass("Renderable", [
      Member("__module__", NotCallable),
      Member("__init__", Callable(Plain("__init__", ["self", "text"], 0, None, 9))),
      Member("render", Callable(Render()))],
      false)
  }

  /** The texts the tests' `Renderable` objects hold; object `i` holds `Texts[i]`. */
  const Texts: seq<string> := ["spam", "eggs", "spam!", "['request']", "[]"]

  /** `Renderable(Texts[i])`. */
  function RenderableOf(i: nat): PyObject
  {
    PyObject(RenderableClass(), i)
  }

  function TextOf(obj: PyObject): string
  {
    if obj.id < |Texts| then Texts[obj.id] else ""
  }

  /**
   * What the test methods do when called, told apart by their code.
   * `default_args` is exercised
   * only without `spam`; `keyword_args` renders the keys it received, of
   * which only whether `'request'` appears matters.
   */
  function Handlers(f: Function, kwargs: map<string, Arg>): CallResult
  {
    if f.code == Spam().code then ObjectResult(RenderableOf(0))
    else if f.code == Eggs().code then ObjectResult(RenderableOf(1))
    else if f.code == Parrot().code then Raises(HttpException(BadRequest(Some("resting!"))))
    else if f.code == DefaultArgs().code && "spam" !in kwargs then ObjectResult(RenderableOf(2))
    else if f.code == KeywordArgs().code then ObjectResult(RenderableOf(if "request" in kwargs then 3 else 4))
    else if f.code == Render().code && "self" in kwargs && kwargs["self"].Instance? then
      CallableResult(Rendered(TextOf(kwargs["self"].obj)))
    else Raises(OtherException("AssertionError"))
  }

  /** The keys `Root`'s members write: each route, and `xyzzy` and the dunders under their own names. */
  const RootKeys: seq<Key> := [Seg("__module__"), Seg("spam"), Seg("hovercraft"), Seg("parrot"), Seg("xyzzy"),
    Seg("required_arg"), Seg("default_args"), Seg("keyword_args"), Seg("__doc__")]

  lemma RootMembersKeys()
    ensures |RootClass().members| == |RootKeys|
    ensures forall i | 0 <= i < |RootKeys| :: KeyOfMember(RootClass().members[i]) == RootKeys[i]
  {
    var ms := RootClass().members;
    RoutedMember(ms[1], "spam");
    RoutedMember(ms[2], "hovercraft");
    RoutedMember(ms[3], "parrot");
    RoutedMember(ms[5], "required_arg");
    RoutedMember(ms[6], "default_args");
    RoutedMember(ms[7], "keyword_args");
  }

  /** The routes of `Root`: each decorated method's key and entry. */
  lemma RootEntries()
    ensures RootKeys[1] == Seg("spam") && EntryOfMember(RootClass().members[1]) == Method(Spam())
    ensures RootKeys[2] == Seg("hovercraft") && EntryOfMember(RootClass().members[2]) == Method(Eggs())
    ensures RootKeys[3] == Seg("parrot") && EntryOfMember(RootClass().members[3]) == Method(Parrot())
    ensures RootKeys[5] == Seg("required_arg") && EntryOfMember(RootClass().members[5]) == Method(RequiredArg())
    ensures RootKeys[6] == Seg("default_args") && EntryOfMember(RootClass().members[6]) == Method(DefaultArgs())
    ensures RootKeys[7] == Seg("keyword_args") && EntryOfMember(RootClass().members[7]) == Method(KeywordArgs())
  {
    var ms := RootClass().members;
    RoutedMember(ms[1], "spam");
    RoutedMember(ms[2], "hovercraft");
    RoutedMember(ms[3], "parrot");
    RoutedMember(ms[5], "required_arg");
    RoutedMember(ms[6], "default_args");
    RoutedMember(ms[7], "keyword_args");
  }

  /** Each route of `Root` finds its member's entry: the keys are all distinct. */
  lemma RootLookup(i: nat)
    requires i < |RootKeys|
    ensures Lookup(BuildSpec(RootClass().members), RootKeys[i]) == Some(EntryOfMember(RootClass().members[i]))
  {
    RootMembersKeys();
    RootKeysDistinct();
    LastWriterWins(RootClass().members, i);
  }

  /** No two members of `Root` write the same key. */
  lemma RootKeysDistinct()
    ensures forall j, k | 0 <= j < k < |RootKeys| :: RootKeys[j] != RootKeys[k]
  {
  }

  /** Any other key is `NOT_FOUND` on `Root`. */
  lemma RootMiss(k: Key)
    requires k !in RootKeys
    ensures Lookup(BuildSpec(RootClass().members), k) == None
  {
    RootMembersKeys();
    BuildSpecKeys(RootClass().members, k);
  }

  /** With no segments left, a `Renderable` renders its text through `render`. */
  lemma RenderableRenders(i: nat, params: map<string, Value>, fuel: nat)
    ensures Dispatched(RenderableOf(i), [], params, Handlers, fuel) == Returned(Rendered(TextOf(RenderableOf(i))))
  {
    var ms := RenderableClass().members;
    assert KeyOfMember(ms[2]) == DefaultKey;
    LastDefaultWins(ms, 2);
  }

  function Root(): PyObject
  {
    PyObject(RootClass(), 0)
  }

  /** `GET /name` splits into the one segment `name`. */
  lemma SplitOneSegment(name: string)
    requires name != [] && '/' !in name
    ensures SplitPath("/" + name) == [name]
  {
    SplitPathRoundTrip([name]);
  }

  /** A request whose one segment is `name` reaches the `Root` member that writes `Seg(name)`. */
  lemma RootDispatch(request: Request, name: string, i: nat, f: Function, fuel: nat)
    requires request.path == "/" + name && name != [] && '/' !in name
    requires 0 < i < |RootKeys| && RootKeys[i] == Seg(name)
    requires EntryOfMember(RootClass().members[i]) == Method(f)
    ensures Dispatched(Root(), SplitPath(request.path), ParamsOf(request), Handlers, fuel)
      == Traversed(f, Root(), [], ParamsOf(request), Handlers, fuel)
  {
    SplitOneSegment(name);
    RootLookup(i);
  }

  /** `self` alone is not a required parameter. */
  lemma SelfOnly(spec: ArgSpec)
    requires spec.args == ["self"] && spec.defaults == 0
    ensures RequiredArgs(spec) == Some([])
  {
    assert Undefaulted(spec)[1..] == [];
  }

  /** A method with no required parameter whose call returns a `Renderable` renders its text. */
  lemma CallThenRender(f: Function, params: map<string, Value>, r: nat, fuel: nat)
    requires RequiredArgs(f.argspec) == Some([])
    requires Handlers(f, Kwargs(f.argspec, Root(), params)) == ObjectResult(RenderableOf(r))
    ensures Traversed(f, Root(), [], params, Handlers, fuel + 1) == Returned(Rendered(TextOf(RenderableOf(r))))
  {
    BoundCallContinues(f, Root(), [], params, Handlers, fuel);
    RenderableRenders(r, params, fuel);
  }

  /**
   * A request reaching a `Root` method with no required parameter that
   * returns a `Renderable` renders that object's text.
   */
  lemma RootRouteRenders(request: Request, name: string, i: nat, f: Function, r: nat, text: string, fuel: nat)
    requires request.path == "/" + name && name != [] && '/' !in name
    requires 0 < i < |RootKeys| && RootKeys[i] == Seg(name)
    requires EntryOfMember(RootClass().members[i]) == Method(f)
    requires RequiredArgs(f.argspec) == Some([])
    requires Handlers(f, Kwargs(f.argspec, Root(), ParamsOf(request))) == ObjectResult(RenderableOf(r))
    requires TextOf(RenderableOf(r)) == text
    ensures Respond(Root(), request, Handlers, fuel + 1) == Returned(Rendered(text))
  {
    RootDispatch(request, name, i, f, fuel + 1);
    CallThenRender(f, ParamsOf(request), r, fuel);
  }

  /**
   * A request reaching a `Root` method with no required parameter that
   * raises an HTTP exception renders that exception's page.
   */
  lemma RootRouteRaises(request: Request, name: string, i: nat, f: Function, error: HttpError, fuel: nat)
    requires request.path == "/" + name && name != [] && '/' !in name
    requires 0 < i < |RootKeys| && RootKeys[i] == Seg(name)
    requires EntryOfMember(RootClass().members[i]) == Method(f)
    requires RequiredArgs(f.argspec) == Some([])
    requires Handlers(f, Kwargs(f.argspec, Root(), ParamsOf(request))) == Raises(HttpException(error))
    ensures Respond(Root(), request, Handlers, fuel) == Returned(ErrorPage(error))
  {
    RootDispatch(request, name, i, f, fuel);
    BoundCallContinues(f, Root(), [], ParamsOf(request), Handlers, fuel);
  }

  /** A request reaching a `Root` method whose one required parameter is missing is a 400 naming it. */
  lemma RootRouteMissing(request: Request, name: string, i: nat, f: Function, arg: string, fuel: nat)
    requires request.path == "/" + name && name != [] && '/' !in name
    requires 0 < i < |RootKeys| && RootKeys[i] == Seg(name)
    requires EntryOfMember(RootClass().members[i]) == Method(f)
    requires RequiredArgs(f.argspec) == Some([arg]) && arg !in ParamsOf(request)
    ensures Respond(Root(), request, Handlers, fuel) == Returned(ErrorPage(BadRequest(Some(MissingParameterMessage(arg)))))
  {
    RootDispatch(request, name, i, f, fuel);
    MissingParameterIsBadRequest(f, Root(), [], ParamsOf(request), Handlers, fuel, 0);
  }

  /** A request whose one segment `Root` does not hold, or holds as not traversable, is a 404. */
  lemma RootNotFound(request: Request, name: string, fuel: nat)
    requires request.path == "/" + name && name != [] && '/' !in name
    requires Lookup(BuildSpec(RootClass().members), Seg(name)) in {None, Some(NotTraversable)}
    ensures Respond(Root(), request, Handlers, fuel) == Returned(ErrorPage(NotFound(None)))
  {
    SplitOneSegment(name);
    NotFoundInvokesNothing(Root(), [name], ParamsOf(request), Handlers, fuel);
  }

  lemma SpamCall(request: Request)
    requires request.path == "/spam"
    ensures request.path == "/" + "spam" && "spam" != [] && '/' !in "spam"
    ensures RequiredArgs(Spam().argspec) == Some([])
    ensures Handlers(Spam(), Kwargs(Spam().argspec, Root(), ParamsOf(request))) == ObjectResult(RenderableOf(0))
    ensures TextOf(RenderableOf(0)) == "spam"
  {
    SelfOnly(Spam().argspec);
  }

  /** `test_spam`: `/spam` renders `spam`. */
  lemma TestSpam(request: Request, fuel: nat)
    requires request.path == "/spam"
    ensures Respond(Root(), request, Handlers, fuel + 1) == Returned(Rendered("spam"))
  {
    SpamCall(request);
    RootEntries();
    RootRouteRenders(request, "spam", 1, Spam(), 0, "spam", fuel);
  }

  lemma EggsCall(request: Request)
    requires request.path == "/hovercraft"
    ensures request.path == "/" + "hovercraft" && "hovercraft" != [] && '/' !in "hovercraft"
    ensures RequiredArgs(Eggs().argspec) == Some([])
    ensures Handlers(Eggs(), Kwargs(Eggs().argspec, Root(), ParamsOf(request))) == ObjectResult(RenderableOf(1))
    ensures TextOf(RenderableOf(1)) == "eggs"
  {
    SelfOnly(Eggs().argspec);
  }

  /** `test_hovercraft`: `/hovercraft` reaches `eggs` and renders `eggs`. */
  lemma TestHovercraft(request: Request, fuel: nat)
    requires request.path == "/hovercraft"
    ensures Respond(Root(), request, Handlers, fuel + 1) == Returned(Rendered("eggs"))
  {
    EggsCall(request);
    RootEntries();
    RootRouteRenders(request, "hovercraft", 2, Eggs(), 1, "eggs", fuel);
  }

  lemma EggsMissing(request: Request)
    requires request.path == "/eggs"
    ensures request.path == "/" + "eggs" && "eggs" != [] && '/' !in "eggs"
    ensures Lookup(BuildSpec(RootClass().members), Seg("eggs")) == None
  {
    RootMiss(Seg("eggs"));
  }

  /** `test_eggs`: `eggs` is traversable only as `hovercraft`, so `/eggs` is a 404. */
  lemma TestEggs(request: Request, fuel: nat)
    requires request.path == "/eggs"
    ensures Respond(Root(), request, Handlers, fuel) == Returned(ErrorPage(NotFound(None)))
  {
    EggsMissing(request);
    RootNotFound(request, "eggs", fuel);
  }

  lemma XyzzyHidden(request: Request)
    requires request.path == "/xyzzy"
    ensures request.path == "/" + "xyzzy" && "xyzzy" != [] && '/' !in "xyzzy"
    ensures Lookup(BuildSpec(RootClass().members), Seg("xyzzy")) == Some(NotTraversable)
  {
    RootLookup(4);
  }

  /** `test_xyzzy`: the undecorated `xyzzy` is not traversable, so `/xyzzy` is a 404. */
  lemma TestXyzzy(request: Request, fuel: nat)
    requires request.path == "/xyzzy"
    ensures Respond(Root(), request, Handlers, fuel) == Returned(ErrorPage(NotFound(None)))
  {
    XyzzyHidden(request);
    RootNotFound(request, "xyzzy", fuel);
  }

  lemma ParrotCall(request: Request)
    requires request.path == "/parrot"
    ensures request.path == "/" + "parrot" && "parrot" != [] && '/' !in "parrot"
    ensures RequiredArgs(Parrot().argspec) == Some([])
    ensures Handlers(Parrot(), Kwargs(Parrot().argspec, Root(), ParamsOf(request))) == Raises(HttpException(BadRequest(Some("resting!"))))
  {
    SelfOnly(Parrot().argspec);
  }

  /** `test_parrot`: the `BadRequest` that `parrot` raises becomes the response (400). */
  lemma TestParrot(request: Request, fuel: nat)
    requires request.path == "/parrot"
    ensures Respond(Root(), request, Handlers, fuel) == Returned(ErrorPage(BadRequest(Some("resting!"))))
  {
    ParrotCall(request);
    RootEntries();
    RootRouteRaises(request, "parrot", 3, Parrot(), BadRequest(Some("resting!")), fuel);
  }

  lemma RequiredArgCall(request: Request)
    requires request.path == "/required_arg"
    requires "spam" !in request.args
    ensures request.path == "/" + "required_arg" && "required_arg" != [] && '/' !in "required_arg"
    ensures RequiredArgs(RequiredArg().argspec) == Some(["spam"]) && "spam" !in ParamsOf(request)
    ensures MissingParameterMessage("spam") == "Required parameter \"spam\" not provided"
  {
    assert Undefaulted(RequiredArg().argspec)[1..] == ["spam"];
  }

  /** `test_required_arg`: without `spam` in the query, `/required_arg` is a 400 and the method is not called. */
  lemma TestRequiredArg(request: Request, fuel: nat)
    requires request.path == "/required_arg"
    requires "spam" !in request.args
    ensures Respond(Root(), request, Handlers, fuel)
      == Returned(ErrorPage(BadRequest(Some("Required parameter \"spam\" not provided"))))
  {
    RequiredArgCall(request);
    RootEntries();
    RootRouteMissing(request, "required_arg", 5, RequiredArg(), "spam", fuel);
  }

  lemma DefaultArgsCall(request: Request)
    requires request.path == "/default_args"
    requires "spam" !in request.args
    ensures request.path == "/" + "default_args" && "default_args" != [] && '/' !in "default_args"
    ensures RequiredArgs(DefaultArgs().argspec) == Some([])
    ensures Handlers(DefaultArgs(), Kwargs(DefaultArgs().argspec, Root(), ParamsOf(request))) == ObjectResult(RenderableOf(2))
    ensures TextOf(RenderableOf(2)) == "spam!"
  {
    assert Undefaulted(DefaultArgs().argspec) == ["self"];
    assert Undefaulted(DefaultArgs().argspec)[1..] == [];
  }

  /** `test_default_args`: `spam` keeps its default, and `/default_args` renders `spam!`. */
  lemma TestDefaultArgs(request: Request, fuel: nat)
    requires request.path == "/default_args"
    requires "spam" !in request.args
    ensures Respond(Root(), request, Handlers, fuel + 1) == Returned(Rendered("spam!"))
  {
    DefaultArgsCall(request);
    RootEntries();
    RootRouteRenders(request, "default_args", 6, DefaultArgs(), 2, "spam!", fuel);
  }

  lemma KeywordArgsCall(request: Request)
    requires request.path == "/keyword_args"
    ensures request.path == "/" + "keyword_args" && "keyword_args" != [] && '/' !in "keyword_args"
    ensures RequiredArgs(KeywordArgs().argspec) == Some([])
    ensures Handlers(KeywordArgs(), Kwargs(KeywordArgs().argspec, Root(), ParamsOf(request))) == ObjectResult(RenderableOf(3))
    ensures TextOf(RenderableOf(3)) == "['request']"
  {
    SelfOnly(KeywordArgs().argspec);
    KeywordHandlerSeesEverything(KeywordArgs().argspec, Root(), request);
  }

  /** `test_keyword_args`: `keyword_args` receives the whole parameter dictionary, `request` included. */
  lemma TestKeywordArgs(request: Request, fuel: nat)
    requires request.path == "/keyword_args"
    ensures Respond(Root(), request, Handlers, fuel + 1) == Returned(Rendered("['request']"))
  {
    KeywordArgsCall(request);
    RootEntries();
    RootRouteRenders(request, "keyword_args", 7, KeywordArgs(), 3, "['request']", fuel);
  }

  /** `hello(self, name='world')` of tests/server_test.py, `@traversable` over `@plaintext`. */
  function Hello(): Function
  {
    Marked(Plain("hello", ["self", "name"], 1, None, 10), "traversable_as", Str("hello"))
  }

  function HelloRoot(): PyObject
  {
    PyObject(PyClass("Root", [Member("__module__", NotCallable), Member("hello", Callable(Hello()))], false), 0)
  }

  /** What `hello` does when called: a plain-text response greeting `name`. */
  function Greeter(f: Function, kwargs: map<string, Arg>): CallResult
  {
    if f.code == Hello().code then
      var name := if "name" in kwargs && kwargs["name"].Param? && kwargs["name"].value.Text?
        then kwargs["name"].value.s else "world";
      CallableResult(Rendered("Hello, " + name + "!"))
    else Raises(OtherException("AttributeError"))
  }

  /** A request for `/hello` reaches `hello`. */
  lemma HelloRoute(request: Request, fuel: nat)
    requires request.path == "/hello"
    ensures Dispatched(HelloRoot(), SplitPath(request.path), ParamsOf(request), Greeter, fuel)
      == Traversed(Hello(), HelloRoot(), [], ParamsOf(request), Greeter, fuel)
  {
    HelloPath(request);
    HelloLookup();
    SplitOneSegment("hello");
  }

  lemma HelloPath(request: Request)
    requires request.path == "/hello"
    ensures request.path == "/" + "hello" && "hello" != [] && '/' !in "hello"
  {
  }

  /** `HelloRoot` holds `hello` under its route. */
  lemma HelloLookup()
    ensures Lookup(BuildSpec(HelloRoot().cls.members), Seg("hello")) == Some(Method(Hello()))
  {
    var members := HelloRoot().cls.members;
    RoutedMember(members[1], "hello");
    LastWriterWins(members, 1);
  }

  /** `name` has a default, so `hello` has no required parameter. */
  lemma HelloRequiresNothing()
    ensures RequiredArgs(Hello().argspec) == Some([])
  {
    assert Undefaulted(Hello().argspec) == ["self"];
    assert Undefaulted(Hello().argspec)[1..] == [];
  }

  /** A request for `/hello` answers with what `hello` returns for the request's parameters. */
  lemma HelloCalled(request: Request, fuel: nat)
    requires request.path == "/hello"
    ensures Respond(HelloRoot(), request, Greeter, fuel)
      == Returned(Greeter(Hello(), Kwargs(Hello().argspec, HelloRoot(), ParamsOf(request))).app)
  {
    HelloRoute(request, fuel);
    HelloRequiresNothing();
    BoundCallContinues(Hello(), HelloRoot(), [], ParamsOf(request), Greeter, fuel);
  }

  /** `hello` greets the `name` it is given, or the world. */
  lemma Greets(kwargs: map<string, Arg>, name: string)
    requires if "name" in kwargs then kwargs["name"] == Param(Text(name)) else name == "world"
    ensures Greeter(Hello(), kwargs) == CallableResult(Rendered("Hello, " + name + "!"))
  {
  }

  /** String-literal arithmetic the two greetings need; a solver aid, not a property of the application. */
  lemma Greeting()
    ensures "Hello, " + "world" + "!" == "Hello, world!"
    ensures "Hello, " + "Daniel" + "!" == "Hello, Daniel!"
  {
  }

  /** `test_hello`: without `name` in the query, `/hello` greets the world. */
  lemma TestHello(request: Request, fuel: nat)
    requires request.path == "/hello" && "name" !in request.args
    ensures Respond(HelloRoot(), request, Greeter, fuel) == Returned(Rendered("Hello, world!"))
  {
    HelloCalled(request, fuel);
    assert "name" !in ParamsOf(request);
    Greets(Kwargs(Hello().argspec, HelloRoot(), ParamsOf(request)), "world");
    Greeting();
  }

  /** `test_parameter`: `/hello?name=Daniel` greets Daniel. */
  lemma TestParameter(request: Request, fuel: nat)
    requires request.path == "/hello" && "name" in request.args && request.args["name"] == "Daniel"
    ensures Respond(HelloRoot(), request, Greeter, fuel) == Returned(Rendered("Hello, Daniel!"))
  {
    HelloCalled(request, fuel);
    QueryParameterInjected(Hello().argspec, HelloRoot(), request, "name");
    Greets(Kwargs(Hello().argspec, HelloRoot(), ParamsOf(request)), "Daniel");
    Greeting();
  }
}
