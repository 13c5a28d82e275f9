/**
 * The browser-script generator: the namespace tree that mirrors each API
 * function's dotted module path, the collection of the registered routes
 * into it, and the choices the request templates make per method.
 */
module Js {
  import opened Wrappers
  import opened Text
  import opened Values
  import Web
  import Decorators

  // ---------------------------------------------------------------------------
  // JavascriptGenerator.Namespace
  // ---------------------------------------------------------------------------

  /** One entry of a class's route list: `(RestMethod, route, api)`. */
  datatype ClassRoute = ClassRoute(verb: Decorators.RestMethod, route: string, api: Web.WebApiRef)

  /** Following the child edges named by `path` from node n. */
  function WalkIn(children: seq<map<string, nat>>, n: nat, path: seq<string>): (r: Option<nat>)
    ensures r.Some? ==> r.value < |children|
    decreases |path|
  {
    if n >= |children| then None
    else if |path| == 0 then Some(n)
    else if path[0] in children[n] then WalkIn(children, children[n][path[0]], path[1..])
    else None
  }

  /** A walk one component at a time. */
  lemma WalkCons(children: seq<map<string, nat>>, n: nat, name: string, rest: seq<string>)
    ensures WalkIn(children, n, [name] + rest) ==
      (if n < |children| && name in children[n] then WalkIn(children, children[n][name], rest) else None)
  {
    assert ([name] + rest)[0] == name;
    assert ([name] + rest)[1..] == rest;
  }

  /** `after` keeps every node and every child edge of `before`. */
  ghost predicate Extends(before: seq<map<string, nat>>, after: seq<map<string, nat>>)
  {
    |before| <= |after|
    && forall n, name :: 0 <= n < |before| && name in before[n] ==> name in after[n] && after[n][name] == before[n][name]
  }

  /** A walk that succeeds keeps its leaf when the tree only grows. */
  lemma {:induction false} WalkExtends(before: seq<map<string, nat>>, after: seq<map<string, nat>>, n: nat, path: seq<string>)
    requires Extends(before, after)
    requires WalkIn(before, n, path).Some?
    ensures WalkIn(after, n, path) == WalkIn(before, n, path)
    decreases |path|
  {
    if |path| > 0 {
      WalkExtends(before, after, before[n][path[0]], path[1..]);
    }
  }

  /** The classes of the new nodes: each starts with none. */
  function Padded(cs: seq<map<string, seq<ClassRoute>>>, len: nat): (r: seq<map<string, seq<ClassRoute>>>)
    requires |cs| <= len
    ensures |r| == len
    ensures forall m :: 0 <= m < len ==> r[m] == (if m < |cs| then cs[m] else map[])
  {
    cs + seq(len - |cs|, _ => map[])
  }

  /** The child edges with `name` leading to node m. */
  function AddEdge(edges: map<string, nat>, name: string, m: nat): (r: map<string, nat>)
    ensures r.Keys == edges.Keys + {name} && r[name] == m
    ensures forall k :: k in edges && k != name ==> r[k] == edges[k]
  {
    edges[name := m]
  }

  /** `classes.setdefault(name, [])`, read without storing. */
  function RoutesOf(cs: map<string, seq<ClassRoute>>, name: string): seq<ClassRoute>
  {
    if name in cs then cs[name] else []
  }

  /**
   * The tree of Namespace objects below the root `namespaces` of `generate`,
   * node 0 being the root and a new node going last. Each node has its
   * `_namespaces` (child edges by name) and its `_classes` (route lists by
   * class name); the order sequences record the insertion order of the two
   * dictionaries, which is the order `generate` emits them in.
   */
  class NamespaceTree {
    var children: seq<map<string, nat>>
    var childOrder: seq<seq<string>>
    var classes: seq<map<string, seq<ClassRoute>>>
    var classOrder: seq<seq<string>>

    /** A child is created after its parent, and the order sequences enumerate their dictionaries. */
    ghost predicate Valid()
      reads this
    {
      |children| >= 1 && |childOrder| == |children| && |classes| == |children| && |classOrder| == |children|
      && (forall n, name :: 0 <= n < |children| && name in children[n] ==> n < children[n][name] < |children|)
      && (forall n :: 0 <= n < |children| ==> Web.Enumerates(childOrder[n], children[n].Keys))
      && (forall n :: 0 <= n < |children| ==> Web.Enumerates(classOrder[n], classes[n].Keys))
    }

    /** `Namespace()`: no children and no classes. */
    constructor()
      ensures Valid()
      ensures children == [map[]] && childOrder == [[]] && classes == [map[]] && classOrder == [[]]
    {
      children := [map[]];
      childOrder := [[]];
      classes := [map[]];
      classOrder := [[]];
    }

    /**
     * `self._namespaces.setdefault(name, Namespace())` on node n: the existing
     * child, or a new empty one appended under that name.
     */
    method SetDefault(n: nat, name: string) returns (m: nat)
      requires Valid() && n < |children|
      modifies this
      ensures Valid()
      ensures Extends(old(children), children)
      ensures WalkIn(children, n, [name]) == Some(m)
      ensures name in old(children[n]) ==>
        m == old(children[n][name])
        && children == old(children) && childOrder == old(childOrder)
        && classes == old(classes) && classOrder == old(classOrder)
      ensures name !in old(children[n]) ==>
        m == old(|children|)
        && children == old(children)[n := AddEdge(old(children[n]), name, m)] + [map[]]
        && childOrder == old(childOrder)[n := old(childOrder[n]) + [name]] + [[]]
        && classes == old(classes) + [map[]]
        && classOrder == old(classOrder) + [[]]
    {
      WalkCons(children, n, name, []);
      if name in children[n] {
        m := children[n][name];
        return;
      }
      m := |children|;
      children := children[n := AddEdge(children[n], name, m)] + [map[]];
      childOrder := childOrder[n := childOrder[n] + [name]] + [[]];
      classes := classes + [map[]];
      classOrder := classOrder + [[]];
      WalkCons(children, n, name, []);
    }

    /**
     * `add_module(module)` on node n: one namespace per dot-separated
     * component, reused when it exists and created otherwise; the leaf is
     * returned. When the whole path exists nothing changes, so a repeat call
     * returns the same leaf and creates no namespace.
     */
    method AddModule(n: nat, moduleName: string) returns (leaf: nat)
      requires Valid() && n < |children|
      modifies this
      ensures Valid()
      ensures Extends(old(children), children)
      ensures WalkIn(children, n, Split(moduleName, '.')) == Some(leaf)
      ensures |children| <= old(|children|) + |Split(moduleName, '.')|
      ensures classes == Padded(old(classes), |children|)
      ensures |classOrder| == |children|
      ensures forall m :: 0 <= m < old(|classOrder|) ==> classOrder[m] == old(classOrder[m])
      ensures WalkIn(old(children), n, Split(moduleName, '.')).Some? ==>
        leaf == WalkIn(old(children), n, Split(moduleName, '.')).value
        && children == old(children) && childOrder == old(childOrder)
        && classes == old(classes) && classOrder == old(classOrder)
      decreases |moduleName|
    {
      var dot := IndexOf(moduleName, '.');
      if dot < |moduleName| {
        var myName := moduleName[..dot];
        var child := moduleName[dot + 1..];
        assert moduleName == myName + ['.'] + child;
        SplitCons(myName, '.', child);
        WalkCons(children, n, myName, Split(child, '.'));
        ghost var before := children;
        var m := SetDefault(n, myName);
        ghost var between := children;
        WalkCons(children, n, myName, Split(child, '.'));
        leaf := AddModule(m, child);
        WalkCons(children, n, myName, Split(child, '.'));
      } else {
        SplitNoSep(moduleName, '.');
        leaf := SetDefault(n, moduleName);
      }
    }

    /**
     * `add_class_and_route_get` / `add_class_and_route_post`: the module's
     * leaf namespace gets `(verb, route, api)` appended to the route list of
     * `className`, which is created empty on first use; nothing else changes.
     */
    method AddClassAndRoute(verb: Decorators.RestMethod, moduleName: string, className: string, route: string, api: Web.WebApiRef)
      returns (leaf: nat)
      requires Valid()
      modifies this
      ensures Valid()
      ensures Extends(old(children), children)
      ensures WalkIn(children, 0, Split(moduleName, '.')) == Some(leaf)
      ensures classes == AddRoute(Padded(old(classes), |children|), leaf, className, ClassRoute(verb, route, api))
      ensures forall m, c :: 0 <= m < old(|classes|) && c in old(classes[m]) ==>
        c in classes[m] && old(classes[m][c]) <= classes[m][c]
      ensures forall m, c, e :: 0 <= m < |classes| && c in classes[m] && e in classes[m][c] ==>
        e == ClassRoute(verb, route, api) || (m < old(|classes|) && c in old(classes[m]) && e in old(classes[m][c]))
    {
      ghost var before := classes;
      leaf := AddModule(0, moduleName);
      var entry := ClassRoute(verb, route, api);
      AddRouteKeeps(before, |children|, leaf, className, entry);
      AppendRoute(leaf, className, entry);
    }

    /** The append on the leaf's class list, the class name going last in the order when it is new. */
    method AppendRoute(leaf: nat, className: string, entry: ClassRoute)
      requires Valid() && leaf < |children|
      modifies this
      ensures Valid()
      ensures children == old(children) && childOrder == old(childOrder)
      ensures classes == AddRoute(old(classes), leaf, className, entry)
    {
      if className !in classes[leaf] {
        assert className !in classOrder[leaf];
        classOrder := classOrder[leaf := classOrder[leaf] + [className]];
      }
      classes := AddRoute(classes, leaf, className, entry);
      assert Web.Enumerates(classOrder[leaf], classes[leaf].Keys);
    }
  }

  /** `m._classes.setdefault(class_name, []).append(entry)` on node `leaf`. */
  function AddRoute(cs: seq<map<string, seq<ClassRoute>>>, leaf: nat, className: string, entry: ClassRoute)
    : (r: seq<map<string, seq<ClassRoute>>>)
    requires leaf < |cs|
    ensures |r| == |cs|
    ensures forall m :: 0 <= m < |cs| && m != leaf ==> r[m] == cs[m]
    ensures r[leaf].Keys == cs[leaf].Keys + {className}
    ensures r[leaf][className] == RoutesOf(cs[leaf], className) + [entry]
    ensures forall c :: c in cs[leaf] && c != className ==> r[leaf][c] == cs[leaf][c]
  {
    cs[leaf := cs[leaf][className := RoutesOf(cs[leaf], className) + [entry]]]
  }

  /**
   * Adding a route to the padded classes keeps every earlier route list as a
   * prefix, and adds no entry but the new one.
   */
  lemma AddRouteKeeps(before: seq<map<string, seq<ClassRoute>>>, len: nat, leaf: nat, className: string, entry: ClassRoute)
    requires |before| <= len && leaf < len
    ensures var r := AddRoute(Padded(before, len), leaf, className, entry);
      (forall m, c :: 0 <= m < |before| && c in before[m] ==> c in r[m] && before[m][c] <= r[m][c])
      && (forall m, c, e :: 0 <= m < |r| && c in r[m] && e in r[m][c] ==>
            e == entry || (m < |before| && c in before[m] && e in before[m][c]))
  {
    var cs := Padded(before, len);
    var r := AddRoute(cs, leaf, className, entry);
    forall m, c | 0 <= m < |before| && c in before[m]
      ensures c in r[m] && before[m][c] <= r[m][c]
    {
      assert cs[m] == before[m];
    }
    forall m, c, e | 0 <= m < |r| && c in r[m] && e in r[m][c]
      ensures e == entry || (m < |before| && c in before[m] && e in before[m][c])
    {
      assert cs[m] == (if m < |before| then before[m] else map[]);
      if m == leaf && c == className && e != entry {
        assert e in RoutesOf(cs[leaf], className);
      }
    }
  }

  /** Index of the first occurrence of c in s, or |s|. */
  function IndexOf(s: string, c: char): (k: nat)
    ensures k <= |s|
    ensures k < |s| ==> s[k] == c
    ensures c !in s[..k]
    decreases |s|
  {
    if |s| == 0 then 0
    else if s[0] == c then 0
    else
      var k := 1 + IndexOf(s[1..], c);
      assert s[..k] == [s[0]] + s[1..][..k - 1];
      k
  }

  // ---------------------------------------------------------------------------
  // generate: collecting the routes
  // ---------------------------------------------------------------------------

  /** `route[1:].split('/')[0]`: the class a route is emitted under. */
  function ClassName(route: string): (r: string)
    ensures '/' !in r
  {
    Split(if |route| == 0 then "" else route[1..], '/')[0]
  }

  /** The class name is the first path segment after the leading '/'. */
  lemma ClassNameFirstSegment(segment: string, rest: string)
    requires '/' !in segment
    ensures ClassName("/" + segment) == segment
    ensures ClassName("/" + segment + "/" + rest) == segment
  {
    assert ("/" + segment)[1..] == segment;
    SplitNoSep(segment, '/');
    assert ("/" + segment + "/" + rest)[1..] == segment + ['/'] + rest;
    SplitCons(segment, '/', rest);
  }

  /** The route `web_api` gives method `meth` of class `cls` is emitted under `cls`. */
  lemma ClassNameOfMethodRoute(scope: string, cls: string, meth: string)
    requires Decorators.NoDot(cls) && Decorators.NoDot(meth) && '/' !in cls
    ensures ClassName(Decorators.RouteOf(scope + "." + cls + "." + meth)) == cls
    ensures ClassName(Decorators.RouteOf(cls + "." + meth)) == cls
  {
    Decorators.RouteOfMethod(scope, cls, meth);
    ClassNameFirstSegment(cls, meth);
  }

  /** `not skip_html or content_type.lower() != 'text/html'`. */
  predicate Included(contentType: string, skipHtml: bool)
  {
    !skipHtml || Lower(contentType) != "text/html"
  }

  /** 'text/html' in any letter case is skipped exactly when skipping is asked for. */
  lemma HtmlSkipped(contentType: string, skipHtml: bool)
    requires |contentType| == |"text/html"|
    requires forall i :: 0 <= i < |contentType| ==> LowerChar(contentType[i]) == "text/html"[i]
    ensures Included(contentType, skipHtml) <==> !skipHtml
  {
    assert Lower(contentType) == "text/html";
  }

  /** The tree given by its fields holds the entry under its module's leaf and its class name. */
  ghost predicate HeldIn(children: seq<map<string, nat>>, classes: seq<map<string, seq<ClassRoute>>>,
                         verb: Decorators.RestMethod, route: string, api: Web.WebApiRef)
  {
    var leaf := WalkIn(children, 0, Split(api.moduleName, '.'));
    leaf.Some? && leaf.value < |classes| && ClassName(route) in classes[leaf.value]
    && ClassRoute(verb, route, api) in classes[leaf.value][ClassName(route)]
  }

  /** The tree holds the entry under its module's leaf and its class name. */
  ghost predicate Holds(ns: NamespaceTree, verb: Decorators.RestMethod, route: string, api: Web.WebApiRef)
    reads ns
  {
    HeldIn(ns.children, ns.classes, verb, route, api)
  }

  /** An entry of the tree comes from an included route of its verb, with that route's callable. */
  ghost predicate FromTables(tables: Web.RouteTables, skipHtml: bool, e: ClassRoute, getDone: nat, postDone: nat)
    reads tables
  {
    if e.verb == Decorators.GET then
      exists j :: 0 <= j < getDone && j < |tables.orderGet| && tables.orderGet[j] == e.route
        && e.route in tables.callablesGet && e.route in tables.contentType
        && e.api == tables.callablesGet[e.route] && Included(tables.contentType[e.route], skipHtml)
    else
      exists j :: 0 <= j < postDone && j < |tables.orderPost| && tables.orderPost[j] == e.route
        && e.route in tables.callablesPost && e.route in tables.contentType
        && e.api == tables.callablesPost[e.route] && Included(tables.contentType[e.route], skipHtml)
  }

  /** Every entry of the classes is one the tables justify. */
  ghost predicate JustifiedIn(classes: seq<map<string, seq<ClassRoute>>>, tables: Web.RouteTables, skipHtml: bool, getDone: nat, postDone: nat)
    reads tables
  {
    forall m, c, e :: 0 <= m < |classes| && c in classes[m] && e in classes[m][c] ==>
      FromTables(tables, skipHtml, e, getDone, postDone)
  }

  /** Every entry the tree holds is one the tables justify. */
  ghost predicate Justified(ns: NamespaceTree, tables: Web.RouteTables, skipHtml: bool, getDone: nat, postDone: nat)
    reads ns, tables
  {
    JustifiedIn(ns.classes, tables, skipHtml, getDone, postDone)
  }

  /** The included GET routes before `getDone` and the included POST routes before `postDone` are held. */
  ghost predicate HoldsAllIn(children: seq<map<string, nat>>, classes: seq<map<string, seq<ClassRoute>>>,
                             tables: Web.RouteTables, skipHtml: bool, getDone: nat, postDone: nat)
    reads tables
    requires tables.Valid()
  {
    (forall j :: 0 <= j < getDone && j < |tables.orderGet| && Included(tables.contentType[tables.orderGet[j]], skipHtml) ==>
       HeldIn(children, classes, Decorators.GET, tables.orderGet[j], tables.callablesGet[tables.orderGet[j]]))
    && (forall j :: 0 <= j < postDone && j < |tables.orderPost| && Included(tables.contentType[tables.orderPost[j]], skipHtml) ==>
       HeldIn(children, classes, Decorators.POST, tables.orderPost[j], tables.callablesPost[tables.orderPost[j]]))
  }

  /** The tree after handling `getDone` GET routes and `postDone` POST routes. */
  ghost predicate Collected(ns: NamespaceTree, tables: Web.RouteTables, skipHtml: bool, getDone: nat, postDone: nat)
    reads ns, tables
    requires tables.Valid()
  {
    ns.Valid() && HoldsAllIn(ns.children, ns.classes, tables, skipHtml, getDone, postDone)
    && JustifiedIn(ns.classes, tables, skipHtml, getDone, postDone)
  }

  /**
   * The two loops at the start of `generate`: every GET route, then every
   * POST route, whose content type is not skipped, is added under the dotted
   * module of its callable and the class named by its first path segment.
   * The tree then holds exactly the included routes.
   */
  method CollectRoutes(tables: Web.RouteTables, skipHtml: bool) returns (ns: NamespaceTree)
    requires tables.Valid()
    ensures fresh(ns) && ns.Valid()
    ensures forall j :: 0 <= j < |tables.orderGet| && Included(tables.contentType[tables.orderGet[j]], skipHtml) ==>
      Holds(ns, Decorators.GET, tables.orderGet[j], tables.callablesGet[tables.orderGet[j]])
    ensures forall j :: 0 <= j < |tables.orderPost| && Included(tables.contentType[tables.orderPost[j]], skipHtml) ==>
      Holds(ns, Decorators.POST, tables.orderPost[j], tables.callablesPost[tables.orderPost[j]])
    ensures Justified(ns, tables, skipHtml, |tables.orderGet|, |tables.orderPost|)
  {
    ns := new NamespaceTree();
    CollectGet(ns, tables, skipHtml);
    CollectPost(ns, tables, skipHtml);
    CollectedHoldsExactly(ns, tables, skipHtml);
  }

  /** What `Collected` says once every route has been handled. */
  lemma CollectedHoldsExactly(ns: NamespaceTree, tables: Web.RouteTables, skipHtml: bool)
    requires tables.Valid()
    requires Collected(ns, tables, skipHtml, |tables.orderGet|, |tables.orderPost|)
    ensures ns.Valid()
    ensures forall j :: 0 <= j < |tables.orderGet| && Included(tables.contentType[tables.orderGet[j]], skipHtml) ==>
      Holds(ns, Decorators.GET, tables.orderGet[j], tables.callablesGet[tables.orderGet[j]])
    ensures forall j :: 0 <= j < |tables.orderPost| && Included(tables.contentType[tables.orderPost[j]], skipHtml) ==>
      Holds(ns, Decorators.POST, tables.orderPost[j], tables.callablesPost[tables.orderPost[j]])
    ensures Justified(ns, tables, skipHtml, |tables.orderGet|, |tables.orderPost|)
  {
  }

  /** The `for route, api in WebApplication.callables_get.items()` loop. */
  method CollectGet(ns: NamespaceTree, tables: Web.RouteTables, skipHtml: bool)
    requires tables.Valid()
    requires Collected(ns, tables, skipHtml, 0, 0)
    modifies ns
    ensures Collected(ns, tables, skipHtml, |tables.orderGet|, 0)
  {
    var i := 0;
    while i < |tables.orderGet|
      invariant 0 <= i <= |tables.orderGet|
      invariant Collected(ns, tables, skipHtml, i, 0)
    {
      AddGetRoute(ns, tables, skipHtml, i);
      i := i + 1;
    }
  }

  /** The `for route, api in WebApplication.callables_post.items()` loop. */
  method CollectPost(ns: NamespaceTree, tables: Web.RouteTables, skipHtml: bool)
    requires tables.Valid()
    requires Collected(ns, tables, skipHtml, |tables.orderGet|, 0)
    modifies ns
    ensures Collected(ns, tables, skipHtml, |tables.orderGet|, |tables.orderPost|)
  {
    var i := 0;
    while i < |tables.orderPost|
      invariant 0 <= i <= |tables.orderPost|
      invariant Collected(ns, tables, skipHtml, |tables.orderGet|, i)
    {
      AddPostRoute(ns, tables, skipHtml, i);
      i := i + 1;
    }
  }

  /** One iteration of the GET loop. */
  method AddGetRoute(ns: NamespaceTree, tables: Web.RouteTables, skipHtml: bool, i: nat)
    requires tables.Valid() && i < |tables.orderGet|
    requires Collected(ns, tables, skipHtml, i, 0)
    modifies ns
    ensures Collected(ns, tables, skipHtml, i + 1, 0)
  {
    var route := tables.orderGet[i];
    var api := tables.callablesGet[route];
    if Included(tables.contentType[route], skipHtml) {
      AddAndKeep(ns, tables, skipHtml, Decorators.GET, route, api, i, 0);
    } else {
      SkipKeepsCollected(ns.children, ns.classes, tables, skipHtml, i, 0, i + 1, 0);
    }
  }

  /** One iteration of the POST loop. */
  method AddPostRoute(ns: NamespaceTree, tables: Web.RouteTables, skipHtml: bool, i: nat)
    requires tables.Valid() && i < |tables.orderPost|
    requires Collected(ns, tables, skipHtml, |tables.orderGet|, i)
    modifies ns
    ensures Collected(ns, tables, skipHtml, |tables.orderGet|, i + 1)
  {
    var route := tables.orderPost[i];
    var api := tables.callablesPost[route];
    if Included(tables.contentType[route], skipHtml) {
      AddAndKeep(ns, tables, skipHtml, Decorators.POST, route, api, |tables.orderGet|, i);
    } else {
      SkipKeepsCollected(ns.children, ns.classes, tables, skipHtml, |tables.orderGet|, i, |tables.orderGet|, i + 1);
    }
  }

  /** A route that is not included adds nothing to hold, and justifies the same entries. */
  lemma SkipKeepsCollected(children: seq<map<string, nat>>, classes: seq<map<string, seq<ClassRoute>>>,
                           tables: Web.RouteTables, skipHtml: bool, g: nat, p: nat, g': nat, p': nat)
    requires tables.Valid() && g <= g' <= g + 1 && p <= p' <= p + 1
    requires g' == g + 1 ==> g < |tables.orderGet| && !Included(tables.contentType[tables.orderGet[g]], skipHtml)
    requires p' == p + 1 ==> p < |tables.orderPost| && !Included(tables.contentType[tables.orderPost[p]], skipHtml)
    requires HoldsAllIn(children, classes, tables, skipHtml, g, p)
    requires JustifiedIn(classes, tables, skipHtml, g, p)
    ensures HoldsAllIn(children, classes, tables, skipHtml, g', p')
    ensures JustifiedIn(classes, tables, skipHtml, g', p')
  {
    SkipKeepsHolds(children, classes, tables, skipHtml, g, p, g', p');
    JustifiedMonotone(classes, tables, skipHtml, g, p, g', p');
  }

  lemma SkipKeepsHolds(children: seq<map<string, nat>>, classes: seq<map<string, seq<ClassRoute>>>,
                       tables: Web.RouteTables, skipHtml: bool, g: nat, p: nat, g': nat, p': nat)
    requires tables.Valid() && g <= g' <= g + 1 && p <= p' <= p + 1
    requires g' == g + 1 ==> g < |tables.orderGet| && !Included(tables.contentType[tables.orderGet[g]], skipHtml)
    requires p' == p + 1 ==> p < |tables.orderPost| && !Included(tables.contentType[tables.orderPost[p]], skipHtml)
    requires HoldsAllIn(children, classes, tables, skipHtml, g, p)
    ensures HoldsAllIn(children, classes, tables, skipHtml, g', p')
  {
  }

  /** Entries justified by fewer handled routes are justified by more. */
  lemma JustifiedMonotone(classes: seq<map<string, seq<ClassRoute>>>, tables: Web.RouteTables, skipHtml: bool,
                          g: nat, p: nat, g': nat, p': nat)
    requires g <= g' && p <= p'
    requires JustifiedIn(classes, tables, skipHtml, g, p)
    ensures JustifiedIn(classes, tables, skipHtml, g', p')
  {
    forall m, c, e | 0 <= m < |classes| && c in classes[m] && e in classes[m][c]
      ensures FromTables(tables, skipHtml, e, g', p')
    {
      assert FromTables(tables, skipHtml, e, g, p);
    }
  }

  /**
   * The included route at position `getDone` (GET) or `postDone` (POST) is
   * added; what the tree held before it still holds, it is now held, and
   * every entry is justified.
   */
  method AddAndKeep(ns: NamespaceTree, tables: Web.RouteTables, skipHtml: bool, verb: Decorators.RestMethod,
                    route: string, api: Web.WebApiRef, getDone: nat, postDone: nat)
    requires tables.Valid()
    requires verb == Decorators.GET ==>
      getDone < |tables.orderGet| && tables.orderGet[getDone] == route && api == tables.callablesGet[route]
    requires verb == Decorators.POST ==>
      postDone < |tables.orderPost| && tables.orderPost[postDone] == route && api == tables.callablesPost[route]
    requires Included(tables.contentType[route], skipHtml)
    requires Collected(ns, tables, skipHtml, getDone, postDone)
    modifies ns
    ensures Collected(ns, tables, skipHtml, getDone + (if verb == Decorators.GET then 1 else 0),
                      postDone + (if verb == Decorators.POST then 1 else 0))
  {
    ghost var before := ns.children;
    ghost var classesBefore := ns.classes;
    var leaf := ns.AddClassAndRoute(verb, api.moduleName, ClassName(route), route, api);
    AddKeepsHeld(before, classesBefore, ns.children, ns.classes, leaf, verb, route, api);
    AddKeepsCollected(before, classesBefore, ns.children, ns.classes, tables, skipHtml, verb, route, api, getDone, postDone);
  }

  /** After adding a route, the tree holds it and everything it held before. */
  lemma AddKeepsHeld(before: seq<map<string, nat>>, classesBefore: seq<map<string, seq<ClassRoute>>>,
                     after: seq<map<string, nat>>, classesAfter: seq<map<string, seq<ClassRoute>>>,
                     leaf: nat, verb: Decorators.RestMethod, route: string, api: Web.WebApiRef)
    requires Extends(before, after) && |classesBefore| <= |after| && leaf < |after|
    requires WalkIn(after, 0, Split(api.moduleName, '.')) == Some(leaf)
    requires classesAfter == AddRoute(Padded(classesBefore, |after|), leaf, ClassName(route), ClassRoute(verb, route, api))
    ensures HeldIn(after, classesAfter, verb, route, api)
    ensures forall v, r, a :: HeldIn(before, classesBefore, v, r, a) ==> HeldIn(after, classesAfter, v, r, a)
  {
    AddRouteKeeps(classesBefore, |after|, leaf, ClassName(route), ClassRoute(verb, route, api));
    forall v, r, a | HeldIn(before, classesBefore, v, r, a)
      ensures HeldIn(after, classesAfter, v, r, a)
    {
      WalkExtends(before, after, 0, Split(a.moduleName, '.'));
      var l := WalkIn(before, 0, Split(a.moduleName, '.')).value;
      assert classesBefore[l][ClassName(r)] <= classesAfter[l][ClassName(r)];
    }
  }

  /** The collection property carries over one added, included route. */
  lemma AddKeepsCollected(before: seq<map<string, nat>>, classesBefore: seq<map<string, seq<ClassRoute>>>,
                          after: seq<map<string, nat>>, classesAfter: seq<map<string, seq<ClassRoute>>>,
                          tables: Web.RouteTables, skipHtml: bool, verb: Decorators.RestMethod,
                          route: string, api: Web.WebApiRef, getDone: nat, postDone: nat)
    requires tables.Valid()
    requires verb == Decorators.GET ==>
      getDone < |tables.orderGet| && tables.orderGet[getDone] == route && api == tables.callablesGet[route]
    requires verb == Decorators.POST ==>
      postDone < |tables.orderPost| && tables.orderPost[postDone] == route && api == tables.callablesPost[route]
    requires Included(tables.contentType[route], skipHtml)
    requires HoldsAllIn(before, classesBefore, tables, skipHtml, getDone, postDone)
    requires JustifiedIn(classesBefore, tables, skipHtml, getDone, postDone)
    requires HeldIn(after, classesAfter, verb, route, api)
    requires forall v, r, a :: HeldIn(before, classesBefore, v, r, a) ==> HeldIn(after, classesAfter, v, r, a)
    requires forall m, c, e :: 0 <= m < |classesAfter| && c in classesAfter[m] && e in classesAfter[m][c] ==>
      e == ClassRoute(verb, route, api) || (m < |classesBefore| && c in classesBefore[m] && e in classesBefore[m][c])
    ensures HoldsAllIn(after, classesAfter, tables, skipHtml, getDone + (if verb == Decorators.GET then 1 else 0),
                       postDone + (if verb == Decorators.POST then 1 else 0))
    ensures JustifiedIn(classesAfter, tables, skipHtml, getDone + (if verb == Decorators.GET then 1 else 0),
                        postDone + (if verb == Decorators.POST then 1 else 0))
  {
    var g' := getDone + (if verb == Decorators.GET then 1 else 0);
    var p' := postDone + (if verb == Decorators.POST then 1 else 0);
    AddKeepsHolds(before, classesBefore, after, classesAfter, tables, skipHtml, verb, route, api, getDone, postDone);
    assert FromTables(tables, skipHtml, ClassRoute(verb, route, api), g', p');
    JustifiedMonotone(classesBefore, tables, skipHtml, getDone, postDone, g', p');
    forall m, c, e | 0 <= m < |classesAfter| && c in classesAfter[m] && e in classesAfter[m][c]
      ensures FromTables(tables, skipHtml, e, g', p')
    {
      if e != ClassRoute(verb, route, api) {
        assert m < |classesBefore| && c in classesBefore[m] && e in classesBefore[m][c];
      }
    }
  }

  lemma AddKeepsHolds(before: seq<map<string, nat>>, classesBefore: seq<map<string, seq<ClassRoute>>>,
                      after: seq<map<string, nat>>, classesAfter: seq<map<string, seq<ClassRoute>>>,
                      tables: Web.RouteTables, skipHtml: bool, verb: Decorators.RestMethod,
                      route: string, api: Web.WebApiRef, getDone: nat, postDone: nat)
    requires tables.Valid()
    requires verb == Decorators.GET ==>
      getDone < |tables.orderGet| && tables.orderGet[getDone] == route && api == tables.callablesGet[route]
    requires verb == Decorators.POST ==>
      postDone < |tables.orderPost| && tables.orderPost[postDone] == route && api == tables.callablesPost[route]
    requires HoldsAllIn(before, classesBefore, tables, skipHtml, getDone, postDone)
    requires HeldIn(after, classesAfter, verb, route, api)
    requires forall v, r, a :: HeldIn(before, classesBefore, v, r, a) ==> HeldIn(after, classesAfter, v, r, a)
    ensures HoldsAllIn(after, classesAfter, tables, skipHtml, getDone + (if verb == Decorators.GET then 1 else 0),
                       postDone + (if verb == Decorators.POST then 1 else 0))
  {
    var g' := getDone + (if verb == Decorators.GET then 1 else 0);
    var p' := postDone + (if verb == Decorators.POST then 1 else 0);
    forall j | 0 <= j < g' && j < |tables.orderGet| && Included(tables.contentType[tables.orderGet[j]], skipHtml)
      ensures HeldIn(after, classesAfter, Decorators.GET, tables.orderGet[j], tables.callablesGet[tables.orderGet[j]])
    {
      if j < getDone {
        assert HeldIn(before, classesBefore, Decorators.GET, tables.orderGet[j], tables.callablesGet[tables.orderGet[j]]);
      }
    }
    forall j | 0 <= j < p' && j < |tables.orderPost| && Included(tables.contentType[tables.orderPost[j]], skipHtml)
      ensures HeldIn(after, classesAfter, Decorators.POST, tables.orderPost[j], tables.callablesPost[tables.orderPost[j]])
    {
      if j < postDone {
        assert HeldIn(before, classesBefore, Decorators.POST, tables.orderPost[j], tables.callablesPost[tables.orderPost[j]]);
      }
    }
  }

  // ---------------------------------------------------------------------------
  // _generate_docs: prefix
  // ---------------------------------------------------------------------------

  /** Each line stripped, after `tab`, ending in '\n', in order. */
  function PrefixLines(lines: seq<string>, tab: string): string
    decreases |lines|
  {
    if |lines| == 0 then "" else tab + Strip(lines[0]) + "\n" + PrefixLines(lines[1..], tab)
  }

  /** `prefix(text, tab)`: the loop over `text.splitlines()`. */
  method Prefix(text: string, tab: string) returns (newText: string)
    ensures newText == PrefixLines(SplitLines(text), tab)
  {
    var lines := SplitLines(text);
    newText := "";
    var i := 0;
    assert lines[0..] == lines;
    while i < |lines|
      invariant 0 <= i <= |lines|
      invariant newText + PrefixLines(lines[i..], tab) == PrefixLines(lines, tab)
    {
      PrefixLinesAt(lines, i, tab);
      var piece := tab + Strip(lines[i]) + "\n";
      ConcatAssoc(newText, piece, PrefixLines(lines[i + 1..], tab));
      newText := newText + piece;
      i := i + 1;
    }
  }

  /** One step of the prefix loop: the text for lines[i..] starts with line i's piece. */
  lemma PrefixLinesAt(lines: seq<string>, i: nat, tab: string)
    requires i < |lines|
    ensures PrefixLines(lines[i..], tab) == tab + Strip(lines[i]) + "\n" + PrefixLines(lines[i + 1..], tab)
  {
    assert lines[i..][0] == lines[i];
    assert lines[i..][1..] == lines[i + 1..];
  }

  /** Each line prefixed with `tab` and stripped, in order. */
  function TabbedLines(lines: seq<string>, tab: string): (r: seq<string>)
    ensures |r| == |lines|
    ensures forall i :: 0 <= i < |lines| ==> r[i] == tab + Strip(lines[i])
    decreases |lines|
  {
    if |lines| == 0 then [] else [tab + Strip(lines[0])] + TabbedLines(lines[1..], tab)
  }

  /** The prefixed text is the tabbed lines, each ended by a newline. */
  lemma {:induction false} PrefixLinesTerminated(lines: seq<string>, tab: string)
    ensures PrefixLines(lines, tab) == Terminated(TabbedLines(lines, tab))
    decreases |lines|
  {
    if |lines| > 0 {
      var rest := lines[1..];
      PrefixLinesTerminated(rest, tab);
      var ls := TabbedLines(lines, tab);
      assert ls == [tab + Strip(lines[0])] + TabbedLines(rest, tab);
      assert ls[1..] == TabbedLines(rest, tab);
    }
  }

  /**
   * The prefixed text has one line per input line: line i is `tab` followed
   * by input line i stripped.
   */
  lemma PrefixLinesSplit(lines: seq<string>, tab: string)
    requires NoLineBreak(tab)
    requires forall i :: 0 <= i < |lines| ==> NoLineBreak(lines[i])
    ensures SplitLines(PrefixLines(lines, tab)) == TabbedLines(lines, tab)
  {
    var ls := TabbedLines(lines, tab);
    forall i | 0 <= i < |ls| ensures NoLineBreak(ls[i]) {
      StripNoBreak(lines[i]);
      NoBreakConcat(tab, Strip(lines[i]));
    }
    PrefixLinesTerminated(lines, tab);
    SplitLinesTerminated(ls);
  }

  /** The docstring lines as prefixed: one line per docstring line. */
  lemma PrefixKeepsLines(text: string, tab: string)
    requires NoLineBreak(tab)
    ensures SplitLines(PrefixLines(SplitLines(text), tab)) == TabbedLines(SplitLines(text), tab)
  {
    var lines := SplitLines(text);
    PrefixLinesSplit(lines, tab);
  }

  const NoDocs: string := "<<No API documentation provided>>"

  /**
   * `prefix(api.__doc__, tab) or "<<No API documentation provided>>"` as
   * written: a function without a docstring has `__doc__` None, and
   * `None.splitlines()` raises AttributeError before the `or` is reached.
   */
  function DocBlock(doc: Option<string>, tab: string): (r: Outcome<string>)
    ensures doc.None? <==> r == Err(AttributeError)
    ensures doc.Some? && SplitLines(doc.value) == [] ==> r == Ok(NoDocs)
    ensures doc.Some? && SplitLines(doc.value) != [] ==> r == Ok(PrefixLines(SplitLines(doc.value), tab))
  {
    match doc
    case None => Err(AttributeError)
    case Some(text) =>
      var p := PrefixLines(SplitLines(text), tab);
      Ok(if p == "" then NoDocs else p)
  }

  /** An API function without a docstring stops the generator. */
  lemma UndocumentedApiFails(tab: string)
    ensures DocBlock(None, tab) == Err(AttributeError)
  {
  }

  /** The placeholder as evidently intended: for a missing docstring as well as for an empty one. */
  function DocBlockIntended(doc: Option<string>, tab: string): (r: string)
    ensures doc.None? ==> r == NoDocs
    ensures doc.Some? ==> Ok(r) == DocBlock(doc, tab)
  {
    match DocBlock(doc, tab)
    case Ok(text) => text
    case Err(_) => NoDocs
  }

  // ---------------------------------------------------------------------------
  // _generate_get_request / _generate_post_request: the template choices
  // ---------------------------------------------------------------------------

  /** `XMLHttpRequest.LOADING` and `XMLHttpRequest.DONE`. */
  const Loading: int := 3
  const Done: int := 4

  /** The readiness threshold written into the template: the number 3, or the name `XMLHttpRequest.DONE`. */
  datatype Threshold = ReadyState(n: int) | DoneName

  /** The callback name and the readiness threshold of a template. */
  datatype Template = Template(callback: string, threshold: Threshold)

  /** `'onreceive', 3` for a streamed response, `'onsuccess', XMLHttpRequest.DONE` otherwise. */
  function TemplateFor(streamed: bool): Template
  {
    if streamed then Template("onreceive", ReadyState(3)) else Template("onsuccess", DoneName)
  }

  /** The ready state the threshold stands for. */
  function ThresholdValue(t: Threshold): int
  {
    match t
    case ReadyState(n) => n
    case DoneName => Done
  }

  /** `request.readyState >= condition2`: whether the callback runs at this ready state. */
  predicate Fires(t: Template, readyState: int)
  {
    readyState >= ThresholdValue(t.threshold)
  }

  /**
   * A streamed template hands data to 'onreceive' while the response is still
   * loading and again when it is done; a single-shot template calls
   * 'onsuccess' only when it is done.
   */
  lemma TemplateThresholds(readyState: int)
    requires 0 <= readyState <= Done
    ensures TemplateFor(true).callback == "onreceive" && TemplateFor(false).callback == "onsuccess"
    ensures Fires(TemplateFor(true), readyState) <==> readyState == Loading || readyState == Done
    ensures Fires(TemplateFor(false), readyState) <==> readyState == Done
  {
  }

  /**
   * The `convert` lookup: a key of None (no annotation, or the annotation
   * None) gives '(null'; str, int, float and bool have their own prefix;
   * every other type falls back to '('.
   */
  function Converter(returnType: Option<Ty>): (c: string)
    ensures c in {"(", "parseInt(", "parseFloat(", "('true'==", "(null"}
    ensures c == "parseInt(" <==> returnType == Some(IntT)
    ensures c == "parseFloat(" <==> returnType == Some(FloatT)
    ensures c == "('true'==" <==> returnType == Some(BoolT)
    ensures c == "(null" <==> returnType.None? || returnType == Some(NoneT)
  {
    match returnType
    case None => "(null"
    case Some(t) =>
      match t
      case NoneT => "(null"
      case IntT => "parseInt("
      case FloatT => "parseFloat("
      case BoolT => "('true'=="
      case _ => "("
  }

  /** The annotations of an API function, in order: parameter names, then 'return' when annotated. */
  type Annotations = seq<(string, Ty)>

  /** `annotations.get('return')`. */
  function ReturnAnnotation(annotations: Annotations): (r: Option<Ty>)
    ensures r.Some? <==> exists i :: 0 <= i < |annotations| && annotations[i].0 == "return"
    ensures r.Some? ==> exists i :: 0 <= i < |annotations| && annotations[i] == ("return", r.value)
    decreases |annotations|
  {
    if |annotations| == 0 then None
    else if annotations[0].0 == "return" then Some(annotations[0].1)
    else
      var r := ReturnAnnotation(annotations[1..]);
      assert forall i :: 0 <= i < |annotations| - 1 ==> annotations[1..][i] == annotations[i + 1];
      r
  }

  /**
   * A type argument as `typing` stores it: a `None` written inside a
   * subscription (`AsyncGenerator[int, None]`, `Dict[str, None]`) is kept as
   * the class NoneType, never as the object None.
   */
  function StoredArg(t: Ty): (r: Ty)
    ensures r != NoneT
    ensures t != NoneT ==> r == t
  {
    if t == NoneT then NoneType else t
  }

  /**
   * `t.__args__` for a generic alias, None for a plain class (which has no
   * `__args__`). A Callable's parameter list is flattened in front of its
   * return type, and every argument is stored as `StoredArg` gives it.
   */
  function TypeArgs(t: Ty): (r: Option<seq<Ty>>)
    ensures r.Some? <==> t.UnionT? || t.ListT? || t.DictT? || t.AsyncIterT? || t.AsyncGenT? || t.CallableT?
    ensures r.Some? ==> |r.value| >= 1 && forall i :: 0 <= i < |r.value| ==> r.value[i] != NoneT
  {
    match t
    case UnionT(first, rest) => Some(StoredArgs([first] + rest))
    case ListT(elem) => Some([StoredArg(elem)])
    case DictT(key, elem) => Some([StoredArg(key), StoredArg(elem)])
    case AsyncIterT(elem) => Some([StoredArg(elem)])
    case AsyncGenT(yieldT, sendT) => Some([StoredArg(yieldT), StoredArg(sendT)])
    case CallableT(params, ret) => Some(StoredArgs(params + [ret]))
    case _ => None
  }

  /** `StoredArg` on each argument. */
  function StoredArgs(ts: seq<Ty>): (r: seq<Ty>)
    ensures |r| == |ts| && forall i :: 0 <= i < |ts| ==> r[i] == StoredArg(ts[i])
  {
    seq(|ts|, i requires 0 <= i < |ts| => StoredArg(ts[i]))
  }

  /**
   * `return_type.__args__[1]` on the POST path: a missing return annotation
   * (and `-> None`) becomes str; otherwise the second type argument as stored
   * (a `None` argument is NoneType), with IndexError for an alias with one
   * argument and AttributeError for a plain class.
   */
  function PostReturnType(annotations: Annotations): (r: Outcome<Ty>)
    ensures ReturnAnnotation(annotations).None? || ReturnAnnotation(annotations) == Some(NoneT) ==> r == Ok(StrT)
    ensures var a := ReturnAnnotation(annotations);
      a.Some? && a.value != NoneT ==>
        r == if TypeArgs(a.value).None? then Err(AttributeError)
             else if |TypeArgs(a.value).value| < 2 then Err(IndexError)
             else Ok(TypeArgs(a.value).value[1])
    ensures r.Err? ==> r.error == IndexError || r.error == AttributeError
    ensures r.Ok? ==> r.value != NoneT
  {
    match ReturnAnnotation(annotations)
    case None => Ok(StrT)
    case Some(t) =>
      match t
      case NoneT => Ok(StrT)
      case AsyncGenT(_, sendT) => Ok(StoredArg(sendT))
      case DictT(_, elem) => Ok(StoredArg(elem))
      case UnionT(_, rest) => if |rest| >= 1 then Ok(StoredArg(rest[0])) else Err(IndexError)
      case CallableT(params, ret) =>
        if |params| >= 2 then Ok(StoredArg(params[1])) else if |params| == 1 then Ok(StoredArg(ret)) else Err(IndexError)
      case ListT(_) => Err(IndexError)
      case AsyncIterT(_) => Err(IndexError)
      case _ => Err(AttributeError)
  }

  /**
   * `return_type_name` in _generate_docs: 'bytes' for bytes and for an
   * AsyncGenerator alias, otherwise `return_type.__name__`, which None (no
   * annotation, or `-> None`) and the other generic aliases do not have.
   */
  function DocsReturnName(returnType: Option<Ty>): (r: Outcome<string>)
    ensures returnType.None? || returnType == Some(NoneT) ==> r == Err(AttributeError)
    ensures returnType == Some(BytesT) || (returnType.Some? && returnType.value.AsyncGenT?) ==> r == Ok("bytes")
    ensures r.Err? ==> r.error == AttributeError
  {
    match returnType
    case None => Err(AttributeError)
    case Some(t) =>
      match t
      case BytesT => Ok("bytes")
      case AsyncGenT(_, _) => Ok("bytes")
      case StrT => Ok("str")
      case IntT => Ok("int")
      case FloatT => Ok("float")
      case BoolT => Ok("bool")
      case BareListT => Ok("list")
      case BareDictT => Ok("dict")
      case EnumT(name, _) => Ok(name)
      case RecordT(name, _) => Ok(name)
      case ClassT(name, _) => Ok(name)
      case _ => Err(AttributeError)
  }

  /**
   * The GET template never reaches the '(null' converter: the docs that are
   * written before it already raise for a missing or None return type.
   */
  lemma GetConverterNeverNull(annotations: Annotations)
    requires DocsReturnName(ReturnAnnotation(annotations)).Ok?
    ensures Converter(ReturnAnnotation(annotations)) != "(null"
  {
  }

  /** A GET function without a return annotation, or annotated `-> None`, stops the generator. */
  lemma GetUnannotatedReturnFails(annotations: Annotations)
    requires ReturnAnnotation(annotations).None? || ReturnAnnotation(annotations) == Some(NoneT)
    ensures DocsReturnName(ReturnAnnotation(annotations)) == Err(AttributeError)
  {
  }

  /**
   * The POST converter never reads '(null': a missing return type is taken as
   * str, and a `None` type argument is the class NoneType, which the lookup
   * misses, so it falls back to '('.
   */
  lemma PostConverterNeverNull(annotations: Annotations)
    requires PostReturnType(annotations).Ok?
    ensures Converter(Some(PostReturnType(annotations).value)) != "(null"
  {
  }

  /** `AsyncGenerator[T, None]`, `Optional[X]` and `Dict[K, None]` all read with the '(' converter. */
  lemma PostNoneArgConverter(annotations: Annotations, t: Ty)
    requires ReturnAnnotation(annotations) == Some(AsyncGenT(t, NoneT))
      || ReturnAnnotation(annotations) == Some(UnionT(t, [NoneT]))
      || ReturnAnnotation(annotations) == Some(Optional(t))
      || ReturnAnnotation(annotations) == Some(DictT(t, NoneT))
    ensures PostReturnType(annotations) == Ok(NoneType)
    ensures Converter(Some(PostReturnType(annotations).value)) == "("
  {
  }

  /** A POST method whose return annotation is a plain class (int, str, a dataclass, ...) cannot be generated. */
  lemma PostPlainReturnRefused(annotations: Annotations, t: Ty)
    requires ReturnAnnotation(annotations) == Some(t)
    requires t.StrT? || t.IntT? || t.FloatT? || t.BoolT? || t.RecordT? || t.ClassT? || t.EnumT? || t.BytesT?
    ensures PostReturnType(annotations) == Err(AttributeError)
  {
  }

  /** `[param for param in annotations.keys()]` after `del annotations['return']`. */
  function ArgNames(annotations: Annotations): (r: seq<string>)
    ensures |r| <= |annotations|
    ensures forall k :: k in r <==> k != "return" && exists i :: 0 <= i < |annotations| && annotations[i].0 == k
    decreases |annotations|
  {
    if |annotations| == 0 then []
    else
      var rest := ArgNames(annotations[1..]);
      assert forall i :: 0 <= i < |annotations| - 1 ==> annotations[1..][i] == annotations[i + 1];
      if annotations[0].0 == "return" then rest else [annotations[0].0] + rest
  }

  /**
   * With the return annotation stored last, as Python stores it, the
   * argument names are the parameter annotations in declaration order.
   */
  lemma {:induction false} ArgNamesInOrder(params: Annotations, ret: Option<Ty>)
    requires forall i :: 0 <= i < |params| ==> params[i].0 != "return"
    ensures var r := ArgNames(params + (if ret.Some? then [("return", ret.value)] else []));
      |r| == |params| && forall i :: 0 <= i < |params| ==> r[i] == params[i].0
    decreases |params|
  {
    var all := params + (if ret.Some? then [("return", ret.value)] else []);
    if |params| == 0 {
      if ret.Some? {
        assert all[1..] == [];
      }
    } else {
      assert all[0] == params[0];
      assert all[1..] == params[1..] + (if ret.Some? then [("return", ret.value)] else []);
      ArgNamesInOrder(params[1..], ret);
    }
  }
}
