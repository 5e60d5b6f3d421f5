/**
 * Route metadata (pystapler/dispatch.py:189-238, 300-348) and the
 * specification of the traversal map built from a class's members
 * (pystapler/dispatch.py:80-105, 129-148).
 *
 * A Python function object is a value here: its `__name__`, the argspec
 * `inspect.getargspec` would report, an identity for its code, and the
 * attribute dictionary the decorators write into.
 */
module Routes {
  import opened Wrappers

  /** Every attribute the decorators write is prefixed with this. */
  const PREFIX: string := "_pystapler_"

  /** The attribute values the decorators write: `default=True`, `traversable_as=<name>`. */
  datatype Attr = Bool(b: bool) | Str(s: string)

  /** The fields of `inspect.getargspec(f)` the core reads. */
  datatype ArgSpec = ArgSpec(
    args: seq<string>,         // positional parameter names, in order
    keywords: Option<string>,  // the name of the `**kwargs` parameter, if any
    defaults: nat)             // how many trailing positional parameters have defaults

  datatype Function = Function(name: string, argspec: ArgSpec, code: nat, attributes: map<string, Attr>)

  /** `getattr(f, PREFIX + attribute, None)`. */
  function AttrOf(f: Function, attribute: string): Option<Attr>
  {
    if PREFIX + attribute in f.attributes then Some(f.attributes[PREFIX + attribute]) else None
  }

  /** Python truthiness of an attribute value (`None`, `False` and `''` are false). */
  predicate Truthy(v: Option<Attr>)
  {
    match v
    case None => false
    case Some(Bool(b)) => b
    case Some(Str(s)) => s != ""
  }

  /** The keyword arguments under their prefixed attribute names. */
  function Qualified(kwargs: map<string, Attr>): map<string, Attr>
  {
    map q | q in (set a | a in kwargs :: PREFIX + a) && |PREFIX| <= |q| && q[|PREFIX|..] in kwargs
      :: kwargs[q[|PREFIX|..]]
  }

  lemma QualifiedAt(kwargs: map<string, Attr>, a: string)
    ensures PREFIX + a in Qualified(kwargs) <==> a in kwargs
    ensures a in kwargs ==> Qualified(kwargs)[PREFIX + a] == kwargs[a]
  {
    assert (PREFIX + a)[|PREFIX|..] == a;
  }

  lemma QualifiedUpdate(kwargs: map<string, Attr>, a: string, v: Attr)
    ensures Qualified(kwargs[a := v]) == Qualified(kwargs)[PREFIX + a := v]
  {
    var lhs, rhs := Qualified(kwargs[a := v]), Qualified(kwargs)[PREFIX + a := v];
    forall q | q in lhs ensures q in rhs && lhs[q] == rhs[q] {
      var b := q[|PREFIX|..];
      assert q == PREFIX + b;
      QualifiedAt(kwargs, b);
      QualifiedAt(kwargs[a := v], b);
    }
    forall q | q in rhs ensures q in lhs {
      if q != PREFIX + a {
        var b := q[|PREFIX|..];
        assert q == PREFIX + b;
        QualifiedAt(kwargs, b);
      }
      QualifiedAt(kwargs[a := v], a);
    }
  }

  /**
   * The function once `_decorate_impl(f, **kwargs)` has run: each keyword
   * becomes a prefixed attribute, and nothing else about `f` changes.
   */
  function WithAttributes(f: Function, kwargs: map<string, Attr>): (g: Function)
    ensures g.name == f.name && g.argspec == f.argspec && g.code == f.code
    ensures forall a :: AttrOf(g, a) == if a in kwargs then Some(kwargs[a]) else AttrOf(f, a)
  {
    var g := f.(attributes := f.attributes + Qualified(kwargs));
    assert forall a :: AttrOf(g, a) == if a in kwargs then Some(kwargs[a]) else AttrOf(f, a) by {
      forall a ensures AttrOf(g, a) == if a in kwargs then Some(kwargs[a]) else AttrOf(f, a) {
        QualifiedAt(kwargs, a);
      }
    }
    g
  }

  /** `_decorate_impl`: set the prefixed attributes one keyword at a time. */
  method DecorateImpl(f: Function, kwargs: map<string, Attr>) returns (decorated: Function)
    ensures decorated == WithAttributes(f, kwargs)
  {
    decorated := f;
    var remaining := kwargs.Keys;
    while remaining != {}
      invariant remaining <= kwargs.Keys
      invariant decorated.attributes == f.attributes + Qualified(kwargs - remaining)
      invariant decorated == f.(attributes := decorated.attributes)
      decreases remaining
    {
      var attribute :| attribute in remaining;
      SetOneMore(f.attributes, kwargs, remaining, attribute);
      decorated := decorated.(attributes := decorated.attributes[PREFIX + attribute := kwargs[attribute]]);
      remaining := remaining - {attribute};
    }
    assert kwargs - remaining == kwargs;
  }

  /** One iteration of the loop of `_decorate_impl` sets one more prefixed attribute. */
  lemma SetOneMore(attributes: map<string, Attr>, kwargs: map<string, Attr>, remaining: set<string>, a: string)
    requires a in remaining && remaining <= kwargs.Keys
    ensures (attributes + Qualified(kwargs - remaining))[PREFIX + a := kwargs[a]]
      == attributes + Qualified(kwargs - (remaining - {a}))
  {
    var done := kwargs - remaining;
    DoneOneMore(kwargs, remaining, a);
    QualifiedUpdate(done, a, kwargs[a]);
    MergeUpdate(attributes, Qualified(done), PREFIX + a, kwargs[a]);
  }

  lemma DoneOneMore(kwargs: map<string, Attr>, remaining: set<string>, a: string)
    requires a in remaining && remaining <= kwargs.Keys
    ensures kwargs - (remaining - {a}) == (kwargs - remaining)[a := kwargs[a]]
  {
  }

  lemma MergeUpdate<K, V>(m: map<K, V>, n: map<K, V>, k: K, v: V)
    ensures (m + n)[k := v] == m + n[k := v]
  {
  }

  /** True when `g` is `f` with `traversable_as` set to `name` and nothing else changed. */
  ghost predicate MarkedTraversable(f: Function, g: Function, name: string)
  {
    && g.name == f.name && g.argspec == f.argspec && g.code == f.code
    && AttrOf(g, "traversable_as") == Some(Str(name))
    && forall a | a != "traversable_as" :: AttrOf(g, a) == AttrOf(f, a)
  }

  /** `@default`: marks the function as its object's default rendering. */
  method Default(f: Function) returns (decorated: Function)
    ensures decorated.name == f.name && decorated.argspec == f.argspec && decorated.code == f.code
    ensures AttrOf(decorated, "default") == Some(Bool(true))
    ensures forall a | a != "default" :: AttrOf(decorated, a) == AttrOf(f, a)
  {
    decorated := DecorateImpl(f, map["default" := Bool(true)]);
  }

  /** The argument `traversable` is applied to: the function itself, or a route name. */
  datatype TraversableArg = Callee(f: Function) | RouteName(name: string)

  /** What `traversable(obj)` returns: the decorated function, or a decorator closure over a name. */
  datatype Decoration = DecoratedFunction(f: Function) | Closure(name: string)

  /**
   * `traversable(obj)`: applied to a function, marks it traversable under
   * its own `__name__`; applied to anything else (a route name), returns a
   * closure that will mark a function under that name.
   */
  method Traversable(obj: TraversableArg) returns (r: Decoration)
    ensures obj.Callee? ==> r.DecoratedFunction? && MarkedTraversable(obj.f, r.f, obj.f.name)
    ensures obj.RouteName? ==> r == Closure(obj.name)
  {
    match obj
    case Callee(f) =>
      var decorated := DecorateImpl(f, map["traversable_as" := Str(f.name)]);
      r := DecoratedFunction(decorated);
    case RouteName(name) =>
      r := Closure(name);
  }

  /** `decorator_closure(method)` of `traversable(name)`: marks under `name` only. */
  method DecoratorClosure(name: string, f: Function) returns (decorated: Function)
    ensures MarkedTraversable(f, decorated, name)
  {
    decorated := DecorateImpl(f, map["traversable_as" := Str(name)]);
  }

  /** `_MethodInfo.name`: the name the method is traversable as, else its own name. */
  function Name(f: Function): Attr
  {
    if AttrOf(f, "traversable_as").Some? then AttrOf(f, "traversable_as").value else Str(f.name)
  }

  /** The positional parameters left once the defaulted ones are sliced off (`args[:-len(defaults)]`). */
  function Undefaulted(spec: ArgSpec): (kept: seq<string>)
    ensures |kept| == if spec.defaults >= |spec.args| then 0 else |spec.args| - spec.defaults
    ensures kept == spec.args[..|kept|]
  {
    if spec.defaults == 0 then spec.args
    else if spec.defaults >= |spec.args| then []
    else spec.args[..|spec.args| - spec.defaults]
  }

  /**
   * `_MethodInfo.required_args`: the undefaulted positional parameters
   * without a leading `self`. `None` stands for the `IndexError` that
   * `args[0]` raises when no undefaulted parameter is left.
   */
  function RequiredArgs(spec: ArgSpec): Option<seq<string>>
  {
    var kept := Undefaulted(spec);
    if |kept| == 0 then None
    else if kept[0] == "self" then Some(kept[1..])
    else Some(kept)
  }

  /** `args[0]` raises `IndexError` exactly when every positional parameter has a default. */
  lemma RequiredArgsFails(spec: ArgSpec)
    ensures RequiredArgs(spec).None? <==> spec.defaults >= |spec.args|
  {
    var kept := Undefaulted(spec);
    assert |kept| == 0 <==> spec.defaults >= |spec.args|;
  }

  /**
   * A parameter is required exactly when it has no default value and is not
   * the leading `self`, and the required ones keep their declaration order:
   * the j-th is the j-th declared parameter, or the (j+1)-th after a `self`.
   */
  lemma RequiredArgsMeaning(spec: ArgSpec, required: seq<string>)
    requires RequiredArgs(spec) == Some(required)
    ensures forall a :: a in required <==>
      exists i | 0 <= i < |spec.args| - spec.defaults :: spec.args[i] == a && !(i == 0 && a == "self")
    ensures |spec.args| > 0
    ensures var skip := if spec.args[0] == "self" then 1 else 0;
      forall j | 0 <= j < |required| :: j + skip < |spec.args| && required[j] == spec.args[j + skip]
  {
    var n := |spec.args| - spec.defaults;
    var skip := if spec.args[0] == "self" then 1 else 0;
    assert required == spec.args[skip..n];
    forall a ensures a in required <==> exists i | 0 <= i < n :: spec.args[i] == a && !(i == 0 && a == "self") {
      RequiredMember(spec.args, skip, n, a);
    }
  }

  /** Dropping a leading `self` from the first `n` parameters drops exactly the occurrence at index 0. */
  lemma RequiredMember(args: seq<string>, skip: nat, n: nat, a: string)
    requires 0 < n <= |args| && skip == if args[0] == "self" then 1 else 0
    ensures a in args[skip..n] <==> exists i | 0 <= i < n :: args[i] == a && !(i == 0 && a == "self")
  {
    if a in args[skip..n] {
      var j :| 0 <= j < n - skip && args[skip..n][j] == a;
      assert args[j + skip] == a;
    }
    if exists i | 0 <= i < n :: args[i] == a && !(i == 0 && a == "self") {
      var i :| 0 <= i < n && args[i] == a && !(i == 0 && a == "self");
      assert args[skip..n][i - skip] == a;
    }
  }

  /** A key of the traversal map: a string (from a name), a bool (from a flag-valued name), or `DEFAULT`. */
  datatype Key = Seg(segment: string) | Flag(b: bool) | DefaultKey

  /** A value of the traversal map: a method's metadata, or `NOT_TRAVERSABLE`. */
  datatype Entry<M> = Method(info: M) | NotTraversable

  /** A member of `cls.__dict__` and whether `callable()` holds of it. */
  datatype MemberValue = Callable(f: Function) | NotCallable
  datatype Member = Member(name: string, value: MemberValue)

  /** The dictionary key a `traversable_as` value becomes. */
  function KeyOf(a: Attr): Key
  {
    match a
    case Str(s) => Seg(s)
    case Bool(b) => Flag(b)
  }

  /**
   * The key the loop body of `_build_traversal_map` writes for one member:
   * a `traversable_as` name wins, then `DEFAULT` for a default method, and
   * otherwise the member's own name.
   */
  function KeyOfMember(member: Member): Key
  {
    match member.value
    case Callable(f) =>
      if AttrOf(f, "traversable_as").Some? then KeyOf(AttrOf(f, "traversable_as").value)
      else if Truthy(AttrOf(f, "default")) then DefaultKey
      else Seg(member.name)
    case NotCallable => Seg(member.name)
  }

  /** The value written under `KeyOfMember(member)`. */
  function EntryOfMember(member: Member): Entry<Function>
  {
    match member.value
    case Callable(f) =>
      if AttrOf(f, "traversable_as").Some? || Truthy(AttrOf(f, "default")) then Method(f) else NotTraversable
    case NotCallable => NotTraversable
  }

  /**
   * The map `_build_traversal_map` returns for members iterated in this
   * order: each member writes its one key, later writes replacing earlier ones.
   */
  function BuildSpec(members: seq<Member>): map<Key, Entry<Function>>
  {
    if members == [] then map[]
    else
      var last := members[|members| - 1];
      BuildSpec(members[..|members| - 1])[KeyOfMember(last) := EntryOfMember(last)]
  }

  /** One more member writes its one key over the map of the members before it. */
  lemma BuildSpecStep(members: seq<Member>, i: nat)
    requires i < |members|
    ensures BuildSpec(members[..i + 1]) == BuildSpec(members[..i])[KeyOfMember(members[i]) := EntryOfMember(members[i])]
  {
    assert members[..i + 1][..i] == members[..i];
  }

  /** `_ObjectInfo.lookup`: the entry under `key`, or `None` for `NOT_FOUND`. */
  function Lookup<M>(traversalMap: map<Key, Entry<M>>, key: Key): Option<Entry<M>>
  {
    if key in traversalMap then Some(traversalMap[key]) else None
  }

  /**
   * The map holds exactly the keys some member writes, and every value in
   * it is what some member writing that key wrote.
   */
  lemma BuildSpecKeys(members: seq<Member>, k: Key)
    ensures k in BuildSpec(members) <==> exists i | 0 <= i < |members| :: KeyOfMember(members[i]) == k
    ensures k in BuildSpec(members) ==>
      exists i | 0 <= i < |members| :: KeyOfMember(members[i]) == k && BuildSpec(members)[k] == EntryOfMember(members[i])
  {
    BuildSpecHasKey(members, k);
    if k in BuildSpec(members) {
      BuildSpecValue(members, k);
    }
  }

  lemma {:induction false} BuildSpecHasKey(members: seq<Member>, k: Key)
    ensures k in BuildSpec(members) <==> exists i | 0 <= i < |members| :: KeyOfMember(members[i]) == k
  {
    if members != [] {
      var n := |members| - 1;
      var init := members[..n];
      BuildSpecHasKey(init, k);
      assert BuildSpec(members) == BuildSpec(init)[KeyOfMember(members[n]) := EntryOfMember(members[n])];
      if KeyOfMember(members[n]) != k && exists i | 0 <= i < |members| :: KeyOfMember(members[i]) == k {
        var i :| 0 <= i < |members| && KeyOfMember(members[i]) == k;
        assert init[i] == members[i];
      }
    }
  }

  lemma {:induction false} BuildSpecValue(members: seq<Member>, k: Key)
    requires k in BuildSpec(members)
    ensures exists i | 0 <= i < |members| :: KeyOfMember(members[i]) == k && BuildSpec(members)[k] == EntryOfMember(members[i])
  {
    var n := |members| - 1;
    var init := members[..n];
    assert BuildSpec(members) == BuildSpec(init)[KeyOfMember(members[n]) := EntryOfMember(members[n])];
    if KeyOfMember(members[n]) == k {
      assert BuildSpec(members)[k] == EntryOfMember(members[n]);
    } else {
      BuildSpecValue(init, k);
      var i :| 0 <= i < |init| && KeyOfMember(init[i]) == k && BuildSpec(init)[k] == EntryOfMember(init[i]);
      assert members[i] == init[i];
    }
  }

  /** Last write wins: a member no later member overwrites keeps its entry. */
  lemma {:induction false} LastWriterWins(members: seq<Member>, i: nat)
    requires i < |members|
    requires forall j | i < j < |members| :: KeyOfMember(members[j]) != KeyOfMember(members[i])
    ensures KeyOfMember(members[i]) in BuildSpec(members)
    ensures BuildSpec(members)[KeyOfMember(members[i])] == EntryOfMember(members[i])
  {
    var n := |members| - 1;
    if i < n {
      var init := members[..n];
      assert init[i] == members[i];
      LastWriterWins(init, i);
    }
  }

  /**
   * A method marked `traversable(n)` is registered under `n` (unless a later
   * member overwrites that key), never under `DEFAULT` even when it is also
   * marked `@default`, and its own member name is in the map only if some
   * other member writes it.
   */
  lemma TraversableKeyedByName(members: seq<Member>, i: nat, n: string)
    requires i < |members| && members[i].value.Callable?
    requires AttrOf(members[i].value.f, "traversable_as") == Some(Str(n))
    ensures (forall j | i < j < |members| :: KeyOfMember(members[j]) != Seg(n)) ==>
      Seg(n) in BuildSpec(members) && BuildSpec(members)[Seg(n)] == Method(members[i].value.f)
    ensures DefaultKey in BuildSpec(members) <==>
      exists j | 0 <= j < |members| && j != i :: KeyOfMember(members[j]) == DefaultKey
    ensures members[i].name != n ==>
      (Seg(members[i].name) in BuildSpec(members) <==>
        exists j | 0 <= j < |members| && j != i :: KeyOfMember(members[j]) == Seg(members[i].name))
  {
    if forall j | i < j < |members| :: KeyOfMember(members[j]) != Seg(n) {
      LastWriterWins(members, i);
    }
    BuildSpecKeys(members, DefaultKey);
    BuildSpecKeys(members, Seg(members[i].name));
  }

  /**
   * A method marked only `@default` is registered under `DEFAULT` (unless a
   * later default replaces it) and not under its own member name.
   */
  lemma DefaultKeyedByDefault(members: seq<Member>, i: nat)
    requires i < |members| && members[i].value.Callable?
    requires AttrOf(members[i].value.f, "traversable_as").None?
    requires Truthy(AttrOf(members[i].value.f, "default"))
    ensures (forall j | i < j < |members| :: KeyOfMember(members[j]) != DefaultKey) ==>
      DefaultKey in BuildSpec(members) && BuildSpec(members)[DefaultKey] == Method(members[i].value.f)
    ensures Seg(members[i].name) in BuildSpec(members) <==>
      exists j | 0 <= j < |members| && j != i :: KeyOfMember(members[j]) == Seg(members[i].name)
  {
    if forall j | i < j < |members| :: KeyOfMember(members[j]) != DefaultKey {
      LastWriterWins(members, i);
    }
    BuildSpecKeys(members, Seg(members[i].name));
  }

  /**
   * A non-callable member, or a callable with neither marker, is stored as
   * `NOT_TRAVERSABLE` under its own name unless a later member overwrites it.
   */
  lemma UndecoratedNotTraversable(members: seq<Member>, i: nat)
    requires i < |members|
    requires members[i].value.Callable? ==>
      AttrOf(members[i].value.f, "traversable_as").None? && !Truthy(AttrOf(members[i].value.f, "default"))
    requires forall j | i < j < |members| :: KeyOfMember(members[j]) != Seg(members[i].name)
    ensures Seg(members[i].name) in BuildSpec(members)
    ensures BuildSpec(members)[Seg(members[i].name)] == NotTraversable
  {
    LastWriterWins(members, i);
  }

  /** With several `@default` methods the last one iterated is kept, silently. */
  lemma LastDefaultWins(members: seq<Member>, i: nat)
    requires i < |members| && KeyOfMember(members[i]) == DefaultKey
    requires forall j | i < j < |members| :: KeyOfMember(members[j]) != DefaultKey
    ensures DefaultKey in BuildSpec(members)
    ensures BuildSpec(members)[DefaultKey] == EntryOfMember(members[i])
    ensures BuildSpec(members)[DefaultKey].Method?
  {
    LastWriterWins(members, i);
  }

  /**
   * Every method in the map sits under the key of its `name`, except a
   * default-only method, which sits under `DEFAULT`.
   */
  lemma MethodEntriesAreNamed(members: seq<Member>, k: Key)
    requires k in BuildSpec(members) && BuildSpec(members)[k].Method?
    ensures var f := BuildSpec(members)[k].info;
      || (k == KeyOf(Name(f)) && AttrOf(f, "traversable_as").Some?)
      || (k == DefaultKey && AttrOf(f, "traversable_as").None? && Truthy(AttrOf(f, "default")))
  {
    BuildSpecKeys(members, k);
  }
}
