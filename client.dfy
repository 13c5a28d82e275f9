/**
 * The native Python client: stubs generated from a `WebInterface` subclass
 * that turn a call into an HTTP request against the server's routes and the
 * reply back into a value, and the cache of generated client classes.
 */
module Client {
  import opened Wrappers
  import opened Text
  import opened Values
  import Conversions
  import Decorators

  type Kwargs = Decorators.Kwargs

  // ---------------------------------------------------------------------------
  // _generate_url_args
  // ---------------------------------------------------------------------------

  /** The entries whose value is not None, in order. */
  function Present(kwargs: Kwargs): (r: Kwargs)
    ensures |r| <= |kwargs|
    ensures forall x :: x in r <==> x in kwargs && x.1 != VNone
    ensures (forall i :: 0 <= i < |kwargs| ==> kwargs[i].1 != VNone) ==> r == kwargs
    decreases |kwargs|
  {
    if |kwargs| == 0 then []
    else
      assert forall i :: 0 <= i < |kwargs| - 1 ==> kwargs[1..][i] == kwargs[i + 1];
      assert kwargs == [kwargs[0]] + kwargs[1..];
      if kwargs[0].1 == VNone then Present(kwargs[1..]) else [kwargs[0]] + Present(kwargs[1..])
  }

  /** Filtering keeps the order of the entries. */
  lemma {:induction false} PresentAppend(a: Kwargs, b: Kwargs)
    ensures Present(a + b) == Present(a) + Present(b)
    decreases |a|
  {
    if |a| > 0 {
      assert (a + b)[1..] == a[1..] + b;
      PresentAppend(a[1..], b);
    } else {
      assert a + b == b;
    }
  }

  /** `f"{k}={to_str(v)}"` for one entry. */
  function PairText(entry: (string, Value), env: Env): Outcome<string>
  {
    match Conversions.ToStr(entry.1, env)
    case Ok(s) => Ok(entry.0 + "=" + PyStr(s))
    case Err(e) => Err(e)
  }

  /**
   * The pair list comprehension of `_generate_url_args`: `f"{k}={to_str(v)}"`
   * for the entries whose value is not None, in order; the first `to_str`
   * that raises makes the whole call raise.
   */
  function UrlPairs(kwargs: Kwargs, env: Env): (r: Outcome<seq<string>>)
    ensures r.Err? <==> exists i :: 0 <= i < |kwargs| && kwargs[i].1 != VNone && Conversions.ToStr(kwargs[i].1, env).Err?
    ensures r.Ok? ==> var p := Present(kwargs);
      |r.value| == |p|
      && forall i :: 0 <= i < |p| ==>
           Conversions.ToStr(p[i].1, env).Ok?
           && r.value[i] == p[i].0 + "=" + PyStr(Conversions.ToStr(p[i].1, env).value)
  {
    var p := Present(kwargs);
    var rs := seq(|p|, i requires 0 <= i < |p| => PairText(p[i], env));
    var r := Conversions.AllOk(rs);
    assert r.Err? ==> exists i :: 0 <= i < |kwargs| && kwargs[i].1 != VNone && Conversions.ToStr(kwargs[i].1, env).Err? by {
      if r.Err? {
        var j :| 0 <= j < |p| && rs[j].Err?;
        assert p[j] in p;
      }
    }
    assert (exists i :: 0 <= i < |kwargs| && kwargs[i].1 != VNone && Conversions.ToStr(kwargs[i].1, env).Err?) ==> r.Err? by {
      if i :| 0 <= i < |kwargs| && kwargs[i].1 != VNone && Conversions.ToStr(kwargs[i].1, env).Err? {
        assert kwargs[i] in p;
        var j :| 0 <= j < |p| && p[j] == kwargs[i];
        assert rs[j].Err?;
      }
    }
    r
  }

  /**
   * `_generate_url_args(kwargs, self_id)` (client.py lines 41-45): empty
   * without an id and without arguments; otherwise '?self=<id>&' or '?'
   * followed by the pairs joined with '&'.
   */
  function GenerateUrlArgs(kwargs: Kwargs, selfId: Option<string>, env: Env): (r: Outcome<string>)
    ensures selfId.None? && |kwargs| == 0 ==> r == Ok("")
    ensures !(selfId.None? && |kwargs| == 0) ==> (r.Ok? <==> UrlPairs(kwargs, env).Ok?)
    ensures r.Ok? && selfId.Some? ==>
      r.value == "?self=" + selfId.value + "&" + Join(UrlPairs(kwargs, env).value, "&")
    ensures r.Ok? && selfId.None? && |kwargs| > 0 ==>
      r.value == "?" + Join(UrlPairs(kwargs, env).value, "&")
  {
    if selfId.None? && |kwargs| == 0 then Ok("")
    else
      match UrlPairs(kwargs, env)
      case Err(e) => Err(e)
      case Ok(pairs) => Ok((if selfId.Some? then "?self=" + selfId.value + "&" else "?") + Join(pairs, "&"))
  }

  /** The type annotation whose conversion reads back `str(v)` for a str, int or bool. */
  function ScalarTy(v: Value): Ty
  {
    match v
    case VInt(_) => IntT
    case VBool(_) => BoolT
    case _ => StrT
  }

  predicate QuerySafe(s: string)
  {
    '&' !in s && '=' !in s
  }

  /**
   * The query string the client builds splits, at '&' and then at '=', back
   * into its name/text pairs, and the server's parameter conversion turns each
   * text back into the value that was passed.
   */
  lemma {:induction false} UrlArgsReachServer(kwargs: Kwargs, env: Env)
    requires |kwargs| > 0
    requires forall i :: 0 <= i < |kwargs| ==> kwargs[i].1.VStr? || kwargs[i].1.VInt? || kwargs[i].1.VBool?
    requires forall i :: 0 <= i < |kwargs| ==> QuerySafe(kwargs[i].0) && QuerySafe(PyStr(kwargs[i].1))
    ensures GenerateUrlArgs(kwargs, None, env).Ok?
    ensures var q := GenerateUrlArgs(kwargs, None, env).value;
      q[0] == '?'
      && |Split(q[1..], '&')| == |kwargs|
      && forall i :: 0 <= i < |kwargs| ==>
           Split(Split(q[1..], '&')[i], '=') == [kwargs[i].0, PyStr(kwargs[i].1)]
           && Decorators.ConvertRequestParam(PyStr(kwargs[i].1), ScalarTy(kwargs[i].1), env) == Ok(kwargs[i].1)
  {
    assert Present(kwargs) == kwargs;
    var pairs := UrlPairs(kwargs, env).value;
    forall i | 0 <= i < |kwargs|
      ensures pairs[i] == kwargs[i].0 + "=" + PyStr(kwargs[i].1)
      ensures '&' !in pairs[i]
      ensures Split(pairs[i], '=') == [kwargs[i].0, PyStr(kwargs[i].1)]
      ensures Decorators.ConvertRequestParam(PyStr(kwargs[i].1), ScalarTy(kwargs[i].1), env) == Ok(kwargs[i].1)
    {
      PairReachesServer(kwargs[i].0, kwargs[i].1, env);
    }
    var q := GenerateUrlArgs(kwargs, None, env).value;
    assert q[1..] == Join(pairs, "&");
    SplitJoin(pairs, '&');
  }

  /** One pair: its text splits back at '=' and its value converts back on the server. */
  lemma PairReachesServer(k: string, v: Value, env: Env)
    requires v.VStr? || v.VInt? || v.VBool?
    requires QuerySafe(k) && QuerySafe(PyStr(v))
    ensures Conversions.ToStr(v, env) == Ok(v)
    ensures '&' !in k + "=" + PyStr(v)
    ensures Split(k + "=" + PyStr(v), '=') == [k, PyStr(v)]
    ensures Decorators.ConvertRequestParam(PyStr(v), ScalarTy(v), env) == Ok(v)
  {
    assert k + "=" + PyStr(v) == k + ['='] + PyStr(v);
    SplitNoSep(PyStr(v), '=');
    SplitCons(k, '=', PyStr(v));
    Decorators.ConvertParamRoundTrip(v, ScalarTy(v), env);
  }

  // ---------------------------------------------------------------------------
  // Client: names, endpoint, cache
  // ---------------------------------------------------------------------------

  /** The endpoint with every trailing '/' removed. */
  function TrimSlashes(s: string): (r: string)
    ensures |r| <= |s| && r == s[..|r|]
    ensures forall i :: |r| <= i < |s| ==> s[i] == '/'
    ensures !EndsWith(r, "/")
    decreases |s|
  {
    if |s| > 0 && s[|s| - 1] == '/' then TrimSlashes(s[..|s| - 1]) else s
  }

  /** Trimming is idempotent, and more trailing slashes name the same endpoint. */
  lemma {:induction false} TrimSlashesStable(s: string)
    ensures TrimSlashes(TrimSlashes(s)) == TrimSlashes(s)
    ensures TrimSlashes(s + "/") == TrimSlashes(s)
  {
    var t := s + "/";
    assert t[..|t| - 1] == s;
  }

  /** The `while end_point.endswith('/')` loop at client.py lines 256-257. */
  method StripEndpoint(endPoint: string) returns (r: string)
    ensures r == TrimSlashes(endPoint)
  {
    r := endPoint;
    while EndsWith(r, "/")
      invariant TrimSlashes(r) == TrimSlashes(endPoint)
      decreases |r|
    {
      assert r[|r| - 1..] == "/";
      r := r[..|r| - 1];
    }
  }

  /**
   * The implementation name (client.py lines 249-255): never for WebInterface
   * itself; the given name when there is one; otherwise the class name, which
   * must end in 'Interface', without that suffix.
   */
  function ImplName(className: string, isBase: bool, implName: Option<string>): (r: Outcome<string>)
    ensures isBase ==> r == Err(PlainException)
    ensures !isBase && implName.Some? ==> r == Ok(implName.value)
    ensures !isBase && implName.None? ==> (r.Ok? <==> EndsWith(className, "Interface"))
    ensures !isBase && implName.None? && r.Ok? ==> r.value + "Interface" == className
    ensures r.Err? ==> r.error == PlainException
  {
    if isBase then Err(PlainException)
    else if implName.Some? then Ok(implName.value)
    else if !EndsWith(className, "Interface") then Err(PlainException)
    else Ok(className[..|className| - |"Interface"|])
  }

  /** `f"{end_point}/{impl_name}/{name}"`. */
  function BaseUrl(endPoint: string, implName: string, name: string): string
  {
    endPoint + "/" + implName + "/" + name
  }

  /** A stub calls the endpoint at exactly the route the server gives method `name` of class `implName`. */
  lemma BaseUrlIsRoute(endPoint: string, implName: string, name: string)
    requires Decorators.NoDot(implName) && Decorators.NoDot(name)
    ensures BaseUrl(endPoint, implName, name) == endPoint + Decorators.RouteOf(implName + "." + name)
  {
    Decorators.RouteOfMethod("", implName, name);
    var route := "/" + implName + "/" + name;
    assert BaseUrl(endPoint, implName, name) == endPoint + route;
  }

  // ---------------------------------------------------------------------------
  // the interface and its stubs
  // ---------------------------------------------------------------------------

  /** The fields of a method's web-API descriptor the stubs read. */
  datatype ApiInfo = ApiInfo(
    verb: Decorators.RestMethod,
    argNames: seq<string>,          // getfullargspec(...).args, receiver first
    returnType: Ty,
    isConstructor: bool,
    uuidParam: Option<string>,
    hasStreamedRequest: bool)

  datatype AsyncKind = NotAsync | CoroutineFn | AsyncGenFn

  /** A member of the interface class as `inspect.getmembers` reports it. */
  datatype InterfaceMember = InterfaceMember(name: string, isStatic: bool, asyncKind: AsyncKind, api: Option<ApiInfo>)

  /** A WebInterface subclass: its functions and its class methods, each in `getmembers` order. */
  datatype Interface = Interface(name: string, isBase: bool, functions: seq<InterfaceMember>, classMethods: seq<InterfaceMember>)

  datatype StubKind = InstanceStub | InstanceStreamedStub | ClassStub | ClassStreamedStub

  predicate IsInstanceKind(k: StubKind)
  {
    k == InstanceStub || k == InstanceStreamedStub
  }

  /** A generated method of the client class. */
  datatype Stub = Stub(name: string, kind: StubKind, api: ApiInfo, baseUrl: string)

  /**
   * One function member (client.py lines 273-287): a plain static method is
   * skipped and a decorated one refused; a non-async function is refused; an
   * undecorated async function has no descriptor (AttributeError); otherwise
   * an instance stub, streamed for an async generator.
   */
  function FunctionStub(f: InterfaceMember, implName: string, endPoint: string): (r: Outcome<Option<Stub>>)
    ensures r == Ok(None) <==> f.isStatic && f.api.None?
    ensures f.isStatic && f.api.Some? ==> r == Err(PlainException)
    ensures !f.isStatic && f.asyncKind == NotAsync ==> r == Err(PlainException)
    ensures !f.isStatic && f.asyncKind != NotAsync && f.api.None? ==> r == Err(AttributeError)
    ensures !f.isStatic && f.asyncKind != NotAsync && f.api.Some? ==> r.Ok? && r.value.Some?
    ensures r.Ok? && r.value.Some? ==>
      r.value.value.name == f.name && IsInstanceKind(r.value.value.kind)
      && (r.value.value.kind == InstanceStreamedStub <==> f.asyncKind == AsyncGenFn)
      && Some(r.value.value.api) == f.api
      && r.value.value.baseUrl == BaseUrl(endPoint, implName, f.name)
  {
    if f.isStatic then (if f.api.Some? then Err(PlainException) else Ok(None))
    else if f.asyncKind == NotAsync then Err(PlainException)
    else if f.api.None? then Err(AttributeError)
    else
      var kind := if f.asyncKind == AsyncGenFn then InstanceStreamedStub else InstanceStub;
      Ok(Some(Stub(f.name, kind, f.api.value, BaseUrl(endPoint, implName, f.name))))
  }

  /**
   * One class method (client.py lines 290-298): 'Client' and private names
   * are skipped; a non-async one is refused; an async generator needs a
   * descriptor without a streamed request (SyntaxError); a coroutine needs a
   * descriptor (AttributeError).
   */
  function ClassMethodStub(m: InterfaceMember, implName: string, endPoint: string): (r: Outcome<Option<Stub>>)
    ensures r == Ok(None) <==> m.name == "Client" || StartsWith(m.name, "_")
    ensures var skipped := m.name == "Client" || StartsWith(m.name, "_");
      (!skipped && m.asyncKind == NotAsync ==> r == Err(PlainException))
      && (!skipped && m.asyncKind == AsyncGenFn && (m.api.None? || m.api.value.hasStreamedRequest) ==> r == Err(SyntaxError))
      && (!skipped && m.asyncKind == AsyncGenFn && m.api.Some? && !m.api.value.hasStreamedRequest ==> r.Ok? && r.value.Some?)
      && (!skipped && m.asyncKind == CoroutineFn && m.api.None? ==> r == Err(AttributeError))
      && (!skipped && m.asyncKind == CoroutineFn && m.api.Some? ==> r.Ok? && r.value.Some?)
    ensures r.Ok? && r.value.Some? ==>
      r.value.value.name == m.name && !IsInstanceKind(r.value.value.kind)
      && (r.value.value.kind == ClassStreamedStub <==> m.asyncKind == AsyncGenFn)
      && Some(r.value.value.api) == m.api
      && r.value.value.baseUrl == BaseUrl(endPoint, implName, m.name)
    ensures r.Ok? && r.value.Some? && r.value.value.kind == ClassStreamedStub ==> !r.value.value.api.hasStreamedRequest
  {
    if m.name == "Client" || StartsWith(m.name, "_") then Ok(None)
    else if m.asyncKind == NotAsync then Err(PlainException)
    else if m.asyncKind == AsyncGenFn then
      if m.api.None? || m.api.value.hasStreamedRequest then Err(SyntaxError)
      else Ok(Some(Stub(m.name, ClassStreamedStub, m.api.value, BaseUrl(endPoint, implName, m.name))))
    else if m.api.None? then Err(AttributeError)
    else Ok(Some(Stub(m.name, ClassStub, m.api.value, BaseUrl(endPoint, implName, m.name))))
  }

  /** A member's stub step: function members first, then class methods. */
  function MemberStub(m: InterfaceMember, isFunction: bool, implName: string, endPoint: string): Outcome<Option<Stub>>
  {
    if isFunction then FunctionStub(m, implName, endPoint) else ClassMethodStub(m, implName, endPoint)
  }

  /** The stubs of a member list, in order; the first refused member ends the scan. */
  function StubsOf(ms: seq<InterfaceMember>, isFunction: bool, implName: string, endPoint: string): (r: Outcome<seq<Stub>>)
    ensures r.Ok? ==> |r.value| <= |ms|
    ensures r.Ok? ==> forall i :: 0 <= i < |ms| ==> MemberStub(ms[i], isFunction, implName, endPoint).Ok?
    ensures r.Ok? ==> forall i :: 0 <= i < |ms| && MemberStub(ms[i], isFunction, implName, endPoint).value.Some? ==>
      MemberStub(ms[i], isFunction, implName, endPoint).value.value in r.value
    ensures r.Ok? ==> forall s :: s in r.value ==> exists i :: 0 <= i < |ms| && MemberStub(ms[i], isFunction, implName, endPoint) == Ok(Some(s))
    ensures r.Err? ==> exists i :: 0 <= i < |ms| && MemberStub(ms[i], isFunction, implName, endPoint) == Err(r.error)
                          && forall j :: 0 <= j < i ==> MemberStub(ms[j], isFunction, implName, endPoint).Ok?
    decreases |ms|
  {
    if |ms| == 0 then Ok([])
    else
      var rest := StubsOf(ms[1..], isFunction, implName, endPoint);
      assert forall i :: 0 <= i < |ms| - 1 ==> ms[1..][i] == ms[i + 1];
      match MemberStub(ms[0], isFunction, implName, endPoint)
      case Err(e) => Err(e)
      case Ok(None) => rest
      case Ok(Some(s)) => (match rest case Err(e) => Err(e) case Ok(ss) => Ok([s] + ss))
  }

  /** Every stub of the interface: instance stubs, then class stubs. */
  function Stubs(iface: Interface, implName: string, endPoint: string): Outcome<seq<Stub>>
  {
    match StubsOf(iface.functions, true, implName, endPoint)
    case Err(e) => Err(e)
    case Ok(fs) =>
      match StubsOf(iface.classMethods, false, implName, endPoint)
      case Err(e) => Err(e)
      case Ok(cs) => Ok(fs + cs)
  }

  /** `f"{cls.__name__}.{end_point}"`. */
  function CacheKey(className: string, endPoint: string): string
  {
    className + "." + endPoint
  }

  /** The generated client class `Impl`, its methods attached one by one. */
  class Impl {
    const implName: string
    const endPoint: string
    var stubs: seq<Stub>

    constructor(implName: string, endPoint: string)
      ensures this.implName == implName && this.endPoint == endPoint && stubs == []
    {
      this.implName := implName;
      this.endPoint := endPoint;
      stubs := [];
    }

    /** `setattr(clazz, name, stub)`. */
    method Attach(s: Stub)
      modifies this
      ensures stubs == old(stubs) + [s]
    {
      stubs := stubs + [s];
    }
  }

  /** `Prefixed(acc, r)`: the outcome r with acc in front of its stubs. */
  function Prefixed(acc: seq<Stub>, r: Outcome<seq<Stub>>): Outcome<seq<Stub>>
  {
    match r
    case Err(e) => Err(e)
    case Ok(ss) => Ok(acc + ss)
  }

  /** One step of the member scan. */
  lemma StubsOfStep(ms: seq<InterfaceMember>, isFunction: bool, implName: string, endPoint: string)
    requires |ms| > 0
    ensures MemberStub(ms[0], isFunction, implName, endPoint).Err? ==>
      StubsOf(ms, isFunction, implName, endPoint) == Err(MemberStub(ms[0], isFunction, implName, endPoint).error)
    ensures MemberStub(ms[0], isFunction, implName, endPoint) == Ok(None) ==>
      StubsOf(ms, isFunction, implName, endPoint) == StubsOf(ms[1..], isFunction, implName, endPoint)
    ensures MemberStub(ms[0], isFunction, implName, endPoint).Ok? && MemberStub(ms[0], isFunction, implName, endPoint).value.Some? ==>
      StubsOf(ms, isFunction, implName, endPoint)
      == Prefixed([MemberStub(ms[0], isFunction, implName, endPoint).value.value], StubsOf(ms[1..], isFunction, implName, endPoint))
  {
  }

  /**
   * The scan of a concatenation is the scan of the first part followed by the
   * scan of the second: the stubs keep the members' order, and a refusal in
   * the first part hides the second.
   */
  lemma {:induction false} StubsOfAppend(a: seq<InterfaceMember>, b: seq<InterfaceMember>, isFunction: bool, implName: string, endPoint: string)
    ensures StubsOf(a, isFunction, implName, endPoint).Err? ==>
      StubsOf(a + b, isFunction, implName, endPoint) == StubsOf(a, isFunction, implName, endPoint)
    ensures StubsOf(a, isFunction, implName, endPoint).Ok? ==>
      StubsOf(a + b, isFunction, implName, endPoint)
      == Prefixed(StubsOf(a, isFunction, implName, endPoint).value, StubsOf(b, isFunction, implName, endPoint))
    decreases |a|
  {
    if |a| == 0 {
      assert a + b == b;
      PrefixedEmpty(StubsOf(b, isFunction, implName, endPoint));
    } else {
      assert (a + b)[0] == a[0];
      assert (a + b)[1..] == a[1..] + b;
      StubsOfAppend(a[1..], b, isFunction, implName, endPoint);
      StubsOfStep(a + b, isFunction, implName, endPoint);
      StubsOfStep(a, isFunction, implName, endPoint);
      var step := MemberStub(a[0], isFunction, implName, endPoint);
      if step.Ok? && step.value.Some? && StubsOf(a[1..], isFunction, implName, endPoint).Ok? {
        PrefixedCons(step.value.value, StubsOf(a[1..], isFunction, implName, endPoint).value, StubsOf(b, isFunction, implName, endPoint));
      }
    }
  }

  // Helpers for StubsOfAppend and AttachAll: `Prefixed` with an empty, consed or extended prefix.
  lemma PrefixedEmpty(r: Outcome<seq<Stub>>)
    ensures Prefixed([], r) == r
  {
    if r.Ok? {
      assert [] + r.value == r.value;
    }
  }

  lemma PrefixedCons(s: Stub, rest: seq<Stub>, r: Outcome<seq<Stub>>)
    ensures Prefixed([s] + rest, r) == Prefixed([s], Prefixed(rest, r))
  {
    if r.Ok? {
      assert ([s] + rest) + r.value == [s] + (rest + r.value);
    }
  }

  lemma PrefixedAppend(acc: seq<Stub>, s: Stub, r: Outcome<seq<Stub>>)
    ensures Prefixed(acc, Prefixed([s], r)) == Prefixed(acc + [s], r)
  {
    if r.Ok? {
      assert acc + ([s] + r.value) == acc + [s] + r.value;
    }
  }

  /** `WebInterface._clients`, shared by every interface class. */
  class ClientCache {
    var clients: map<string, Impl>

    constructor()
      ensures clients == map[]
    {
      clients := map[];
    }

    /** The loop over one member list, attaching each generated stub to `impl`. */
    method AttachAll(impl: Impl, ms: seq<InterfaceMember>, isFunction: bool) returns (r: Outcome<()>)
      modifies impl
      ensures Prefixed(old(impl.stubs), StubsOf(ms, isFunction, impl.implName, impl.endPoint)).Ok? <==> r.Ok?
      ensures r.Ok? ==> Ok(impl.stubs) == Prefixed(old(impl.stubs), StubsOf(ms, isFunction, impl.implName, impl.endPoint))
      ensures r.Err? ==> StubsOf(ms, isFunction, impl.implName, impl.endPoint) == Err(r.error)
    {
      ghost var total := Prefixed(impl.stubs, StubsOf(ms, isFunction, impl.implName, impl.endPoint));
      var i := 0;
      assert ms[0..] == ms;
      while i < |ms|
        invariant 0 <= i <= |ms|
        invariant Prefixed(impl.stubs, StubsOf(ms[i..], isFunction, impl.implName, impl.endPoint)) == total
      {
        StubsOfStep(ms[i..], isFunction, impl.implName, impl.endPoint);
        assert ms[i..][0] == ms[i];
        assert ms[i..][1..] == ms[i + 1..];
        var step := MemberStub(ms[i], isFunction, impl.implName, impl.endPoint);
        if step.Err? {
          return Err(step.error);
        }
        if step.value.Some? {
          PrefixedAppend(impl.stubs, step.value.value, StubsOf(ms[i + 1..], isFunction, impl.implName, impl.endPoint));
          impl.Attach(step.value.value);
        }
        i := i + 1;
      }
      assert ms[i..] == [];
      assert impl.stubs + [] == impl.stubs;
      r := Ok(());
    }

    /** The body of `Client` past the cache lookup: a new class with the stubs of both member lists. */
    method Build(iface: Interface, implName: string, ep: string) returns (r: Outcome<Impl>)
      ensures Stubs(iface, implName, ep).Err? ==> r == Err(Stubs(iface, implName, ep).error)
      ensures Stubs(iface, implName, ep).Ok? ==>
        r.Ok? && fresh(r.value) && r.value.implName == implName && r.value.endPoint == ep
        && r.value.stubs == Stubs(iface, implName, ep).value
    {
      var impl := new Impl(implName, ep);
      var done := AttachAll(impl, iface.functions, true);
      if done.Err? {
        return Err(done.error);
      }
      PrefixedEmpty(StubsOf(iface.functions, true, implName, ep));
      ghost var fs := impl.stubs;
      assert StubsOf(iface.functions, true, implName, ep) == Ok(fs);
      done := AttachAll(impl, iface.classMethods, false);
      if done.Err? {
        return Err(done.error);
      }
      assert Stubs(iface, implName, ep) == Ok(impl.stubs);
      r := Ok(impl);
    }

    /**
     * `WebInterface.Client(end_point, impl_name)` (client.py lines 247-301):
     * names first, then the cache: a known key returns the cached class
     * itself; otherwise a new class is built from the members and cached, and
     * a refused member leaves the cache as it was. Entries are never removed
     * or replaced.
     */
    method Client(iface: Interface, endPoint: string, implName: Option<string>) returns (r: Outcome<Impl>)
      modifies this
      ensures forall k :: k in old(clients) ==> k in clients && clients[k] == old(clients)[k]
      ensures ImplName(iface.name, iface.isBase, implName).Err? ==>
        r == Err(PlainException) && clients == old(clients)
      ensures ImplName(iface.name, iface.isBase, implName).Ok? ==>
        var impl := ImplName(iface.name, iface.isBase, implName).value;
        var ep := TrimSlashes(endPoint);
        var key := CacheKey(iface.name, ep);
        (key in old(clients) ==> r == Ok(old(clients)[key]) && clients == old(clients))
        && (key !in old(clients) && Stubs(iface, impl, ep).Err? ==>
              r == Err(Stubs(iface, impl, ep).error) && clients == old(clients))
        && (key !in old(clients) && Stubs(iface, impl, ep).Ok? ==>
              r.Ok? && fresh(r.value)
              && r.value.implName == impl && r.value.endPoint == ep
              && r.value.stubs == Stubs(iface, impl, ep).value
              && clients == old(clients)[key := r.value])
    {
      var name := ImplName(iface.name, iface.isBase, implName);
      if name.Err? {
        return Err(name.error);
      }
      var ep := StripEndpoint(endPoint);
      var key := CacheKey(iface.name, ep);
      if key in clients {
        return Ok(clients[key]);
      }
      r := Build(iface, name.value, ep);
      if r.Ok? {
        clients := clients[key := r.value];
      }
    }
  }

  // ---------------------------------------------------------------------------
  // inside the stubs: arguments
  // ---------------------------------------------------------------------------

  /**
   * `kwargs_.update({arg_spec.args[n + offset]: arg for n, arg in enumerate(args)})`:
   * positional argument n binds the parameter name at n + offset; a name
   * index past the end raises IndexError.
   */
  function Positional(kwargs: Kwargs, names: seq<string>, args: seq<Value>, offset: nat, n: nat): (r: Outcome<Kwargs>)
    ensures r.Ok? <==> n >= |args| || |args| + offset <= |names|
    ensures r.Err? ==> r.error == IndexError
    decreases |args| - n
  {
    if n >= |args| then Ok(kwargs)
    else if n + offset >= |names| then Err(IndexError)
    else Positional(DictSet(kwargs, names[n + offset], args[n]), names, args, offset, n + 1)
  }

  /** Python parameter names are distinct. */
  predicate DistinctNames(names: seq<string>)
  {
    forall i, j :: 0 <= i < j < |names| ==> names[i] != names[j]
  }

  /** With distinct names, the first name of a slice is not among the rest of it. */
  lemma DistinctSlice(names: seq<string>, a: nat, b: nat)
    requires DistinctNames(names) && a < b <= |names|
    ensures names[a..b] == [names[a]] + names[a + 1..b]
    ensures names[a] !in names[a + 1..b]
  {
    assert forall j :: a + 1 <= j < b ==> names[j] != names[a];
  }

  /** Names that no positional argument from n on reaches keep their keyword value. */
  lemma {:induction false} PositionalKeeps(kwargs: Kwargs, names: seq<string>, args: seq<Value>, offset: nat, n: nat, k: string)
    requires n <= |args| && |args| + offset <= |names|
    requires k !in names[n + offset..|args| + offset]
    ensures Positional(kwargs, names, args, offset, n).Ok?
    ensures DictGet(Positional(kwargs, names, args, offset, n).value, k) == DictGet(kwargs, k)
    decreases |args| - n
  {
    if n < |args| {
      var kw' := DictSet(kwargs, names[n + offset], args[n]);
      assert names[n + offset..|args| + offset] == [names[n + offset]] + names[n + 1 + offset..|args| + offset];
      assert k != names[n + offset] && k !in names[n + 1 + offset..|args| + offset];
      assert DictGet(kw', k) == DictGet(kwargs, k);
      assert Positional(kwargs, names, args, offset, n) == Positional(kw', names, args, offset, n + 1);
      PositionalKeeps(kw', names, args, offset, n + 1, k);
    }
  }

  /** Each positional argument from n on is bound to its name, and names not reached keep their keyword value. */
  lemma {:induction false} PositionalBinds(kwargs: Kwargs, names: seq<string>, args: seq<Value>, offset: nat, n: nat)
    requires DistinctNames(names) && n <= |args| && |args| + offset <= |names|
    ensures Positional(kwargs, names, args, offset, n).Ok?
    ensures forall m :: n <= m < |args| ==>
      DictGet(Positional(kwargs, names, args, offset, n).value, names[m + offset]) == Some(args[m])
    ensures forall k :: k !in names[n + offset..|args| + offset] ==>
      DictGet(Positional(kwargs, names, args, offset, n).value, k) == DictGet(kwargs, k)
    decreases |args| - n
  {
    forall k | k !in names[n + offset..|args| + offset]
      ensures DictGet(Positional(kwargs, names, args, offset, n).value, k) == DictGet(kwargs, k)
    {
      PositionalKeeps(kwargs, names, args, offset, n, k);
    }
    if n < |args| {
      var kw' := DictSet(kwargs, names[n + offset], args[n]);
      var rest := Positional(kw', names, args, offset, n + 1);
      assert Positional(kwargs, names, args, offset, n) == rest;
      PositionalBinds(kw', names, args, offset, n + 1);
      DistinctSlice(names, n + offset, |args| + offset);
      PositionalKeeps(kw', names, args, offset, n + 1, names[n + offset]);
      assert DictGet(rest.value, names[n + offset]) == Some(args[n]);
    }
  }

  /** The positional offset each stub kind uses, as written: 0 in `_add_instance_method`, 1 elsewhere. */
  function ArgOffsetAsWritten(kind: StubKind): nat
  {
    if kind == InstanceStub then 0 else 1
  }

  /**
   * The offset that skips the receiver (`cls` or `self`). The model binds
   * every stub kind with it: for the non-streamed instance stub this is the
   * corrected binding, not the 0 of `ArgOffsetAsWritten`.
   */
  const SkipReceiver: nat := 1

  /** Every stub kind but the non-streamed instance stub skips the receiver as written. */
  lemma SkipReceiverAsWritten(kind: StubKind, kwargs: Kwargs, names: seq<string>, args: seq<Value>)
    ensures ArgOffsetAsWritten(kind) == SkipReceiver <==> kind != InstanceStub
    ensures kind != InstanceStub ==>
      Positional(kwargs, names, args, ArgOffsetAsWritten(kind), 0) == Positional(kwargs, names, args, SkipReceiver, 0)
  {
  }

  /**
   * As written, a non-streamed instance stub binds its first positional
   * argument to the receiver's name: `x.m(5)` for `m(self, n)` sends a
   * second 'self' instead of 'n'.
   */
  lemma InstanceArgBindsSelf(env: Env)
    ensures Positional([], ["self", "n"], [VInt(5)], ArgOffsetAsWritten(InstanceStub), 0) == Ok([("self", VInt(5))])
    ensures GenerateUrlArgs([("self", VInt(5))], Some("id"), env) == Ok("?self=id&self=5")
  {
    assert DictSet([], "self", VInt(5)) == [("self", VInt(5))];
    assert Positional([("self", VInt(5))], ["self", "n"], [VInt(5)], 0, 1) == Ok([("self", VInt(5))]);
    assert Conversions.ToStr(VInt(5), env) == Ok(VInt(5));
    assert NatToDecimal(5) == "5";
    assert PyStr(VInt(5)) == "5";
    var kw: Kwargs := [("self", VInt(5))];
    assert kw[1..] == [];
    assert UrlPairs(kw[1..], env) == Ok([]);
    assert "self" + "=" + PyStr(VInt(5)) == "self=5";
    assert ["self=5"] + [] == ["self=5"];
    assert UrlPairs(kw, env) == Ok(["self=5"]);
    assert Join(["self=5"], "&") == "self=5";
    assert "?self=" + "id" + "&" + "self=5" == "?self=id&self=5";
  }

  /** With the receiver skipped, argument n binds parameter n + 1 and the receiver's name is never bound. */
  lemma StubArgsSkipReceiver(names: seq<string>, args: seq<Value>)
    requires DistinctNames(names) && |args| + 1 <= |names|
    ensures Positional([], names, args, SkipReceiver, 0).Ok?
    ensures forall n :: 0 <= n < |args| ==>
      DictGet(Positional([], names, args, SkipReceiver, 0).value, names[n + 1]) == Some(args[n])
    ensures DictGet(Positional([], names, args, SkipReceiver, 0).value, names[0]).None?
  {
    PositionalBinds([], names, args, 1, 0);
  }

  /** The positional-argument comprehension as a loop over the arguments. */
  method BindPositional(kwargs: Kwargs, names: seq<string>, args: seq<Value>) returns (r: Outcome<Kwargs>)
    ensures r == Positional(kwargs, names, args, SkipReceiver, 0)
  {
    var offset := SkipReceiver;
    var kw := kwargs;
    var n := 0;
    while n < |args|
      invariant 0 <= n <= |args|
      invariant Positional(kw, names, args, offset, n) == Positional(kwargs, names, args, offset, 0)
    {
      if n + offset >= |names| {
        return Err(IndexError);
      }
      kw := DictSet(kw, names[n + offset], args[n]);
      n := n + 1;
    }
    r := Ok(kw);
  }

  // ---------------------------------------------------------------------------
  // inside the stubs: requests
  // ---------------------------------------------------------------------------

  datatype HttpRequest = HttpGet(url: string) | HttpPost(url: string, payload: string)

  /** `json.dumps({to_str(k): normalize_to_json_compat(v) for k, v in kwargs.items()})`. */
  function JsonPayload(kwargs: Kwargs, env: Env): Outcome<string>
  {
    match Conversions.AllOk(seq(|kwargs|, i requires 0 <= i < |kwargs| => Conversions.ToJsonCompat(kwargs[i].1)))
    case Err(e) => Err(e)
    case Ok(vals) => env.dumps(VDict(seq(|kwargs|, i requires 0 <= i < |kwargs| => (VStr(kwargs[i].0), vals[i]))))
  }

  /** `json.dumps({k: to_str(v) for k, v in kwargs.items()})`, the streamed instance POST payload. */
  function StrPayload(kwargs: Kwargs, env: Env): Outcome<string>
  {
    match Conversions.AllOk(seq(|kwargs|, i requires 0 <= i < |kwargs| => Conversions.ToStr(kwargs[i].1, env)))
    case Err(e) => Err(e)
    case Ok(vals) => env.dumps(VDict(seq(|kwargs|, i requires 0 <= i < |kwargs| => (VStr(kwargs[i].0), vals[i]))))
  }

  /**
   * The arguments an instance POST stub sends: 'self' set to the instance id
   * (replacing a 'self' argument in place), everything else as passed; a
   * class stub sends its arguments unchanged.
   */
  function PostArgs(s: Stub, selfId: string, kwargs: Kwargs): (kw: Kwargs)
    ensures IsInstanceKind(s.kind) ==> DictGet(kw, "self") == Some(VStr(selfId))
    ensures IsInstanceKind(s.kind) ==> forall k :: k != "self" ==> DictGet(kw, k) == DictGet(kwargs, k)
    ensures !IsInstanceKind(s.kind) ==> kw == kwargs
  {
    if IsInstanceKind(s.kind) then DictSet(kwargs, "self", VStr(selfId)) else kwargs
  }

  /**
   * The request a stub sends once its arguments are bound: GET carries them
   * in the query after the base URL (with the instance id first for instance
   * stubs); POST sends them as a JSON body to the base URL, instance stubs
   * adding 'self', and the streamed instance stub also puts the id in the URL
   * and its values through `to_str`.
   */
  function StubRequest(s: Stub, selfId: string, kwargs: Kwargs, env: Env): (r: Outcome<HttpRequest>)
    ensures s.api.verb == Decorators.GET ==>
      var q := GenerateUrlArgs(kwargs, if IsInstanceKind(s.kind) then Some(selfId) else None, env);
      (r.Ok? <==> q.Ok?) && (r.Ok? ==> r.value == HttpGet(s.baseUrl + q.value))
    ensures s.api.verb == Decorators.POST ==>
      var p := if s.kind == InstanceStreamedStub then StrPayload(PostArgs(s, selfId, kwargs), env)
               else JsonPayload(PostArgs(s, selfId, kwargs), env);
      (r.Ok? <==> p.Ok?) && (r.Ok? ==> r.value.HttpPost? && r.value.payload == p.value)
    ensures r.Ok? && s.api.verb == Decorators.POST ==>
      r.value.url == if s.kind == InstanceStreamedStub then s.baseUrl + "?self=" + selfId else s.baseUrl
  {
    if s.api.verb == Decorators.GET then
      match GenerateUrlArgs(kwargs, if IsInstanceKind(s.kind) then Some(selfId) else None, env)
      case Err(e) => Err(e)
      case Ok(args) => Ok(HttpGet(s.baseUrl + args))
    else
      var kw := PostArgs(s, selfId, kwargs);
      var payload := if s.kind == InstanceStreamedStub then StrPayload(kw, env) else JsonPayload(kw, env);
      var url := if s.kind == InstanceStreamedStub then s.baseUrl + "?self=" + selfId else s.baseUrl;
      match payload
      case Err(e) => Err(e)
      case Ok(p) => Ok(HttpPost(url, p))
  }

  /** An instance GET stub's URL is the base URL, then '?self=' and the id, then '&' and the arguments. */
  lemma InstanceGetUrl(s: Stub, selfId: string, kwargs: Kwargs, env: Env)
    requires s.api.verb == Decorators.GET && IsInstanceKind(s.kind) && StubRequest(s, selfId, kwargs, env).Ok?
    ensures StubRequest(s, selfId, kwargs, env).value.url
         == s.baseUrl + "?self=" + selfId + "&" + Join(UrlPairs(kwargs, env).value, "&")
  {
  }

  // ---------------------------------------------------------------------------
  // inside the stubs: replies
  // ---------------------------------------------------------------------------

  /** `api.uuid_param or 'uuid'`. */
  function TokenKey(uuidParam: Option<string>): (k: string)
    ensures uuidParam.Some? && uuidParam.value != "" ==> k == uuidParam.value
    ensures uuidParam.None? || uuidParam.value == "" ==> k == "uuid"
  {
    if uuidParam.Some? && uuidParam.value != "" then uuidParam.value else "uuid"
  }

  /** `repr_[key]`: a JSON object holding the key gives its value; a missing key is KeyError; other data TypeError. */
  function SelfIdFrom(repr: Value, key: string): (r: Outcome<Value>)
    ensures r.Ok? <==> repr.VDict? && DictGet(repr.entries, VStr(key)).Some?
    ensures r.Ok? ==> r.value == DictGet(repr.entries, VStr(key)).value
    ensures repr.VDict? && r.Err? ==> r.error == KeyError
  {
    if !repr.VDict? then Err(TypeError)
    else match DictGet(repr.entries, VStr(key))
      case Some(x) => Ok(x)
      case None => Err(KeyError)
  }

  /** What a non-streamed stub call returns: a value, or a new client object for a constructor. */
  datatype StubResult = Returned(v: Value) | Constructed(selfId: Value)

  /**
   * The reply body of a non-streamed stub (decoded as UTF-8): a constructor
   * reads the id from the decoded JSON, under the descriptor's key (client.py
   * lines 79-86, 95-97) or, for an instance POST stub, under 'self_id' (lines
   * 194-196); the `jsonrepr` hook of the class replaces json.loads on the
   * class GET path; otherwise the text is read as the return type.
   */
  function CallResult(s: Stub, body: seq<byte>, jsonrepr: Option<string -> Outcome<Value>>, env: Env): (r: Outcome<StubResult>)
    ensures env.decode(body).None? ==> r == Err(ValueError)
    ensures r.Ok? && r.value.Constructed? ==> s.api.isConstructor
    // a plain method, and a constructor behind an instance GET stub, read the text as the return type
    ensures env.decode(body).Some? && (!s.api.isConstructor || (s.kind == InstanceStub && s.api.verb == Decorators.GET)) ==>
      var v := Conversions.FromStr(env.decode(body).value, s.api.returnType, env);
      (r.Ok? <==> v.Ok?) && (r.Ok? ==> r.value == Returned(v.value))
    // an instance POST constructor reads 'self_id' from the JSON reply
    ensures env.decode(body).Some? && s.api.isConstructor && s.kind == InstanceStub && s.api.verb == Decorators.POST ==>
      match env.loads(env.decode(body).value)
      case None => r == Err(ValueError)
      case Some(j) => (r.Ok? <==> SelfIdFrom(j, "self_id").Ok?) && (r.Ok? ==> r.value == Constructed(SelfIdFrom(j, "self_id").value))
    // a class constructor reads the descriptor's key, through `jsonrepr` when the class has one and the verb is GET
    ensures env.decode(body).Some? && s.api.isConstructor && s.kind == ClassStub ==>
      var data := env.decode(body).value;
      var repr := if s.api.verb == Decorators.GET && jsonrepr.Some? then jsonrepr.value(data)
                  else match env.loads(data) case Some(j) => Ok(j) case None => Err(ValueError);
      (repr.Err? ==> r == Err(repr.error))
      && (repr.Ok? ==> (r.Ok? <==> SelfIdFrom(repr.value, TokenKey(s.api.uuidParam)).Ok?)
                       && (r.Ok? ==> r.value == Constructed(SelfIdFrom(repr.value, TokenKey(s.api.uuidParam)).value)))
  {
    match env.decode(body)
    case None => Err(ValueError)
    case Some(data) =>
      if s.api.isConstructor && !(s.kind == InstanceStub && s.api.verb == Decorators.GET) then
        var key := if IsInstanceKind(s.kind) then "self_id" else TokenKey(s.api.uuidParam);
        var repr :=
          if s.kind == ClassStub && s.api.verb == Decorators.GET && jsonrepr.Some? then jsonrepr.value(data)
          else match env.loads(data) case Some(j) => Ok(j) case None => Err(ValueError);
        match repr
        case Err(e) => Err(e)
        case Ok(j) =>
          match SelfIdFrom(j, key)
          case Err(e) => Err(e)
          case Ok(id) => Ok(Constructed(id))
      else
        match Conversions.FromStr(data, s.api.returnType, env)
        case Err(e) => Err(e)
        case Ok(v) => Ok(Returned(v))
  }

  /** A class constructor stub whose reply is the JSON of an object returns a client bound to its 'uuid' field. */
  lemma ConstructorToken(s: Stub, body: seq<byte>, data: string, es: seq<(Value, Value)>, id: Value, env: Env)
    requires s.kind == ClassStub && s.api.isConstructor && s.api.uuidParam.None?
    requires env.decode(body) == Some(data) && env.loads(data) == Some(VDict(es))
    requires DictGet(es, VStr("uuid")) == Some(id)
    ensures CallResult(s, body, None, env) == Ok(Constructed(id))
  {
  }

  /** The server's single reply for a str, int or bool reads back, on the client, as the value returned. */
  lemma SingleReplyRoundTrip(s: Stub, v: Value, contentType: string, b: seq<byte>, env: Env)
    requires !s.api.isConstructor && (v.VStr? || v.VInt? || v.VBool?) && s.api.returnType == ScalarTy(v)
    requires Decorators.SingleReply(v, contentType, "utf-8", env) == Decorators.Respond(200, Decorators.Payload(b))
    requires env.decode(b) == Some(PyStr(v))
    ensures CallResult(s, b, None, env) == Ok(Returned(v))
  {
    if v.VInt? {
      DecimalRoundTrip(v.i);
    } else if v.VBool? {
      assert Lower("True") == "true";
      assert Lower("False") != "true";
    }
  }

  /** Whether the stub drops a trailing NUL from streamed chunks: every streamed path but the class POST one. */
  function StripsNul(s: Stub): bool
  {
    !(s.kind == ClassStreamedStub && s.api.verb == Decorators.POST)
  }

  /** `if api.return_type == str and data[-1] == 0: data = data[:-1]` (client.py lines 137-138, 226-227, 239-240). */
  function StripNul(data: seq<byte>, returnType: Ty, strip: bool): (r: seq<byte>)
    requires |data| > 0
    ensures strip && returnType == StrT && data[|data| - 1] == 0 ==> r == data[..|data| - 1]
    ensures !(strip && returnType == StrT && data[|data| - 1] == 0) ==> r == data
  {
    if strip && returnType == StrT && data[|data| - 1] == 0 then data[..|data| - 1] else data
  }

  /** One non-empty streamed chunk, decoded and read as the return type. */
  function ChunkResult(data: seq<byte>, returnType: Ty, strip: bool, env: Env): Outcome<Value>
    requires |data| > 0
  {
    match env.decode(StripNul(data, returnType, strip))
    case None => Err(ValueError)
    case Some(text) => Conversions.FromStr(text, returnType, env)
  }

  /** The values a streamed stub yields: one per non-empty chunk, in order, until the first failure. */
  function StreamResults(chunks: seq<seq<byte>>, returnType: Ty, strip: bool, env: Env): (r: (seq<Value>, Option<Exn>))
    ensures |r.0| <= |chunks|
    ensures (forall i :: 0 <= i < |chunks| ==> chunks[i] == []) ==> r == ([], None)
    decreases |chunks|
  {
    if |chunks| == 0 then ([], None)
    else if chunks[0] == [] then StreamResults(chunks[1..], returnType, strip, env)
    else
      match ChunkResult(chunks[0], returnType, strip, env)
      case Err(e) => ([], Some(e))
      case Ok(v) =>
        var (vs, failure) := StreamResults(chunks[1..], returnType, strip, env);
        ([v] + vs, failure)
  }

  lemma StreamResultsStep(chunks: seq<seq<byte>>, returnType: Ty, strip: bool, env: Env)
    requires |chunks| > 0
    ensures chunks[0] == [] ==> StreamResults(chunks, returnType, strip, env) == StreamResults(chunks[1..], returnType, strip, env)
    ensures chunks[0] != [] && ChunkResult(chunks[0], returnType, strip, env).Err? ==>
      StreamResults(chunks, returnType, strip, env) == ([], Some(ChunkResult(chunks[0], returnType, strip, env).error))
    ensures chunks[0] != [] && ChunkResult(chunks[0], returnType, strip, env).Ok? ==>
      var rest := StreamResults(chunks[1..], returnType, strip, env);
      StreamResults(chunks, returnType, strip, env) == ([ChunkResult(chunks[0], returnType, strip, env).value] + rest.0, rest.1)
  {
  }

  /** `(vs, failure)` with `acc` in front of the values. */
  function Prepended(acc: seq<Value>, r: (seq<Value>, Option<Exn>)): (seq<Value>, Option<Exn>)
  {
    (acc + r.0, r.1)
  }

  /** An empty chunk at position i is skipped. */
  lemma StreamSkipsAt(chunks: seq<seq<byte>>, i: nat, returnType: Ty, strip: bool, env: Env)
    requires i < |chunks| && chunks[i] == []
    ensures StreamResults(chunks[i..], returnType, strip, env) == StreamResults(chunks[i + 1..], returnType, strip, env)
  {
    StreamResultsStep(chunks[i..], returnType, strip, env);
    assert chunks[i..][0] == chunks[i];
    assert chunks[i..][1..] == chunks[i + 1..];
  }

  /** A chunk at position i that cannot be read ends the stream with its exception. */
  lemma StreamFailsAt(chunks: seq<seq<byte>>, i: nat, returnType: Ty, strip: bool, env: Env)
    requires i < |chunks| && chunks[i] != [] && ChunkResult(chunks[i], returnType, strip, env).Err?
    ensures StreamResults(chunks[i..], returnType, strip, env) == ([], Some(ChunkResult(chunks[i], returnType, strip, env).error))
  {
    StreamResultsStep(chunks[i..], returnType, strip, env);
    assert chunks[i..][0] == chunks[i];
  }

  /** A chunk at position i that is read yields its value before the rest. */
  lemma StreamYieldsAt(chunks: seq<seq<byte>>, i: nat, acc: seq<Value>, returnType: Ty, strip: bool, env: Env)
    requires i < |chunks| && chunks[i] != [] && ChunkResult(chunks[i], returnType, strip, env).Ok?
    ensures Prepended(acc, StreamResults(chunks[i..], returnType, strip, env))
         == Prepended(acc + [ChunkResult(chunks[i], returnType, strip, env).value], StreamResults(chunks[i + 1..], returnType, strip, env))
  {
    StreamResultsStep(chunks[i..], returnType, strip, env);
    assert chunks[i..][0] == chunks[i];
    assert chunks[i..][1..] == chunks[i + 1..];
    var v := ChunkResult(chunks[i], returnType, strip, env).value;
    var rest := StreamResults(chunks[i + 1..], returnType, strip, env);
    assert acc + ([v] + rest.0) == acc + [v] + rest.0;
  }

  /** The `async for data, _ in resp.content.iter_chunks()` loop of a streamed stub. */
  method ReadStream(chunks: seq<seq<byte>>, returnType: Ty, strip: bool, env: Env) returns (yielded: seq<Value>, failure: Option<Exn>)
    ensures (yielded, failure) == StreamResults(chunks, returnType, strip, env)
  {
    yielded := [];
    failure := None;
    var i := 0;
    assert chunks[0..] == chunks;
    assert [] + StreamResults(chunks, returnType, strip, env).0 == StreamResults(chunks, returnType, strip, env).0;
    while i < |chunks|
      invariant 0 <= i <= |chunks|
      invariant StreamResults(chunks, returnType, strip, env) == Prepended(yielded, StreamResults(chunks[i..], returnType, strip, env))
    {
      var data := chunks[i];
      if data != [] {
        var v := ChunkResult(data, returnType, strip, env);
        if v.Err? {
          StreamFailsAt(chunks, i, returnType, strip, env);
          assert yielded + [] == yielded;
          return yielded, Some(v.error);
        }
        StreamYieldsAt(chunks, i, yielded, returnType, strip, env);
        yielded := yielded + [v.value];
      } else {
        StreamSkipsAt(chunks, i, returnType, strip, env);
      }
      i := i + 1;
    }
    assert chunks[i..] == [];
    assert yielded + [] == yielded;
  }

  /** A str the server streams, received as one chunk, is yielded unchanged. */
  lemma StreamedStrRoundTrip(s: Stub, x: string, b: seq<byte>, env: Env)
    requires s.api.returnType == StrT
    requires Decorators.Frame(VStr(x), "utf-8", env) == Ok(b)
    requires b != [] && b[|b| - 1] != 0 && env.decode(b) == Some(x)
    ensures StreamResults([b], StrT, StripsNul(s), env) == ([VStr(x)], None)
  {
    assert StripNul(b, StrT, StripsNul(s)) == b;
    assert Conversions.FromStr(x, StrT, env) == Ok(VStr(x));
    assert ChunkResult(b, StrT, StripsNul(s), env) == Ok(VStr(x));
    assert [b][1..] == [];
    assert StreamResults([], StrT, StripsNul(s), env) == ([], None);
    assert [VStr(x)] + [] == [VStr(x)];
    StreamResultsStep([b], StrT, StripsNul(s), env);
  }

  /** An int the server streams is framed with a newline, which the client's int parsing ignores. */
  lemma StreamedIntRoundTrip(s: Stub, i: int, b: seq<byte>, env: Env)
    requires s.api.returnType == IntT
    requires Decorators.Frame(VInt(i), "utf-8", env) == Ok(b)
    requires env.decode(b) == Some(IntToDecimal(i) + "\n")
    ensures StreamResults([b], IntT, StripsNul(s), env) == ([VInt(i)], None)
  {
    assert b != [];
    assert StripNul(b, IntT, StripsNul(s)) == b;
    DecimalNewlineRoundTrip(i);
    assert Conversions.FromStr(IntToDecimal(i) + "\n", IntT, env) == Ok(VInt(i));
    assert ChunkResult(b, IntT, StripsNul(s), env) == Ok(VInt(i));
    assert [b][1..] == [];
    assert StreamResults([], IntT, StripsNul(s), env) == ([], None);
    assert [VInt(i)] + [] == [VInt(i)];
    StreamResultsStep([b], IntT, StripsNul(s), env);
  }
}
