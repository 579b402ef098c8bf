/**
  The route-metadata registry as values: the two process-wide tables of the
  routing layer (controller name to base route and declared routes, and
  controller name to constructor), the two writers that update them (the
  class decorator `Controller` and the method decorators produced by
  `createMethodDecorator`), and the replay of a whole sequence of decorator
  applications.

  The class `Decorators.Registry` holds the same tables as mutable fields; its
  methods are proved against the step functions defined here, and the lemmas
  here say what any sequence of decorator applications leaves behind.
 */
module Metadata {

  /** An unbound method (the decorated property's `descriptor.value`), kept opaque. */
  type HandlerId = nat

  /** A controller class (the constructor recorded by `Controller`), kept opaque. */
  type ClassId = nat

  /** One route declaration: the HTTP method name, the route suffix and the unbound handler. */
  datatype RouteDecl = RouteDecl(httpMethod: string, route: string, handler: HandlerId)

  /** The value stored under a controller name in `metadata`. */
  datatype Entry = Entry(baseRoute: string, routes: seq<RouteDecl>)

  /**
    Both tables at one moment. `order` lists the keys of `metadata` in the order
    they were inserted, which is the order a `for...in` loop visits them.
   */
  datatype Tables = Tables(order: seq<string>, metadata: map<string, Entry>, controllers: map<string, ClassId>)
  {
    /** Every metadata key appears exactly once in `order`, and nothing else does. */
    ghost predicate Valid() {
      && (forall i, j :: 0 <= i < j < |order| ==> order[i] != order[j])
      && (forall n :: n in metadata <==> n in order)
    }
  }

  /** Both tables as the module is loaded: empty. */
  const EmptyTables: Tables := Tables([], map[], map[])

  /** The entry stored under `name`, or the default entry a method decorator would create. */
  function EnsureEntry(metadata: map<string, Entry>, name: string): Entry {
    if name in metadata then metadata[name] else Entry("", [])
  }

  /**
    `Controller(baseRoute)` applied to the class `name` (constructor `cls`):
    creates the entry with an empty route list, or changes only the base route
    of the existing one, and records the constructor, last write winning.
   */
  function ControllerStep(t: Tables, name: string, baseRoute: string, cls: ClassId): (r: Tables)
    ensures t.Valid() ==> r.Valid()
    ensures name in r.metadata && r.metadata[name].baseRoute == baseRoute
    ensures r.metadata[name].routes == EnsureEntry(t.metadata, name).routes
    ensures r.metadata.Keys == t.metadata.Keys + {name}
    ensures forall n :: n in t.metadata && n != name ==> r.metadata[n] == t.metadata[n]
    ensures r.controllers.Keys == t.controllers.Keys + {name} && r.controllers[name] == cls
    ensures forall n :: n in t.controllers && n != name ==> r.controllers[n] == t.controllers[n]
    ensures r.order == if name in t.metadata then t.order else t.order + [name]
  {
    if name !in t.metadata then
      Tables(t.order + [name], t.metadata[name := Entry(baseRoute, [])], t.controllers[name := cls])
    else
      Tables(t.order, t.metadata[name := t.metadata[name].(baseRoute := baseRoute)], t.controllers[name := cls])
  }

  /**
    The decorator `createMethodDecorator(method)(route)` applied to a method
    (unbound function `handler`) of the class `name`: creates a default entry
    if there is none, then appends one declaration at the end of its routes.
   */
  function RouteStep(t: Tables, name: string, httpMethod: string, route: string, handler: HandlerId): (r: Tables)
    ensures t.Valid() ==> r.Valid()
    ensures name in r.metadata
    ensures r.metadata[name].baseRoute == EnsureEntry(t.metadata, name).baseRoute
    ensures |r.metadata[name].routes| == |EnsureEntry(t.metadata, name).routes| + 1
    ensures r.metadata[name].routes[..|r.metadata[name].routes| - 1] == EnsureEntry(t.metadata, name).routes
    ensures r.metadata[name].routes[|r.metadata[name].routes| - 1] == RouteDecl(httpMethod, route, handler)
    ensures r.metadata.Keys == t.metadata.Keys + {name}
    ensures forall n :: n in t.metadata && n != name ==> r.metadata[n] == t.metadata[n]
    ensures r.controllers == t.controllers
    ensures r.order == if name in t.metadata then t.order else t.order + [name]
  {
    var entry := EnsureEntry(t.metadata, name);
    var order := if name in t.metadata then t.order else t.order + [name];
    var updated := entry.(routes := entry.routes + [RouteDecl(httpMethod, route, handler)]);
    assert updated.routes[..|updated.routes| - 1] == entry.routes;
    Tables(order, t.metadata[name := updated], t.controllers)
  }

  /** One decorator application, as it runs at class-definition time. */
  datatype Decoration =
    | ClassDecoration(name: string, baseRoute: string, cls: ClassId)
    | MethodDecoration(name: string, httpMethod: string, route: string, handler: HandlerId)

  function Apply(t: Tables, d: Decoration): Tables {
    match d
    case ClassDecoration(name, baseRoute, cls) => ControllerStep(t, name, baseRoute, cls)
    case MethodDecoration(name, httpMethod, route, handler) => RouteStep(t, name, httpMethod, route, handler)
  }

  /** The tables after the decorator applications `ds`, in order, starting from `t`. */
  function Replay(t: Tables, ds: seq<Decoration>): Tables
    decreases |ds|
  {
    if ds == [] then t else Apply(Replay(t, ds[..|ds| - 1]), ds[|ds| - 1])
  }

  /** Some application in `ds` concerns the class `name`. */
  ghost predicate Mentions(ds: seq<Decoration>, name: string) {
    exists i :: 0 <= i < |ds| && ds[i].name == name
  }

  /** The base route of `name` after `ds`: the last class decoration for it wins, else `base`. */
  function BaseFor(base: string, ds: seq<Decoration>, name: string): string
    decreases |ds|
  {
    if ds == [] then base
    else
      var d := ds[|ds| - 1];
      if d.ClassDecoration? && d.name == name then d.baseRoute else BaseFor(base, ds[..|ds| - 1], name)
  }

  /** The route declarations `ds` makes for `name`, in application order. */
  function DeclsFor(ds: seq<Decoration>, name: string): seq<RouteDecl>
    decreases |ds|
  {
    if ds == [] then []
    else
      var d := ds[|ds| - 1];
      DeclsFor(ds[..|ds| - 1], name)
        + if d.MethodDecoration? && d.name == name then [RouteDecl(d.httpMethod, d.route, d.handler)] else []
  }

  /** Any sequence of decorator applications keeps one entry per controller name. */
  lemma {:induction false} ReplayValid(t: Tables, ds: seq<Decoration>)
    requires t.Valid()
    ensures Replay(t, ds).Valid()
    decreases |ds|
  {
    if ds != [] {
      ReplayValid(t, ds[..|ds| - 1]);
    }
  }

  /** The entry a single decorator application leaves under `name`. */
  lemma ApplyEntry(t: Tables, d: Decoration, name: string)
    ensures name in Apply(t, d).metadata <==> name in t.metadata || d.name == name
    ensures EnsureEntry(Apply(t, d).metadata, name)
         == if d.name != name then EnsureEntry(t.metadata, name)
            else if d.ClassDecoration? then Entry(d.baseRoute, EnsureEntry(t.metadata, name).routes)
            else Entry(EnsureEntry(t.metadata, name).baseRoute,
                       EnsureEntry(t.metadata, name).routes + [RouteDecl(d.httpMethod, d.route, d.handler)])
  {
  }

  /** Whether `ds` concerns `name`, split into its earlier applications and its last one. */
  lemma MentionsLast(ds: seq<Decoration>, name: string)
    requires ds != []
    ensures Mentions(ds, name) <==> Mentions(ds[..|ds| - 1], name) || ds[|ds| - 1].name == name
  {
  }

  /**
    What the decorator applications `ds` leave under `name`: an entry exists
    exactly when one existed before or some application concerns `name`; its
    base route is the one set by the last class decoration for `name` (the
    earlier one, or '', when there is none); its routes are the earlier routes
    followed by the method decorations for `name` in application order.
   */
  lemma {:induction false} ReplayEntry(t: Tables, ds: seq<Decoration>, name: string)
    ensures name in Replay(t, ds).metadata <==> name in t.metadata || Mentions(ds, name)
    ensures EnsureEntry(Replay(t, ds).metadata, name)
         == Entry(BaseFor(EnsureEntry(t.metadata, name).baseRoute, ds, name),
                  EnsureEntry(t.metadata, name).routes + DeclsFor(ds, name))
    decreases |ds|
  {
    var init := EnsureEntry(t.metadata, name);
    if ds == [] {
      assert init.routes + DeclsFor(ds, name) == init.routes;
    } else {
      var prefix, d := ds[..|ds| - 1], ds[|ds| - 1];
      ReplayEntry(t, prefix, name);
      MentionsLast(ds, name);
      var prev := Replay(t, prefix);
      assert Replay(t, ds) == Apply(prev, d);
      ApplyEntry(prev, d, name);
      if d.MethodDecoration? && d.name == name {
        var decl := RouteDecl(d.httpMethod, d.route, d.handler);
        assert DeclsFor(ds, name) == DeclsFor(prefix, name) + [decl];
        assert init.routes + DeclsFor(ds, name) == (init.routes + DeclsFor(prefix, name)) + [decl];
      } else {
        assert DeclsFor(ds, name) == DeclsFor(prefix, name) + [];
      }
    }
  }

  /**
    The class decorator may run before or after the method decorators of a
    class: both orders leave the same `metadata` and `controllers`.
   */
  lemma {:induction false} ClassDecorationCommutes(t: Tables, c: Decoration, ms: seq<Decoration>)
    requires c.ClassDecoration?
    requires forall i :: 0 <= i < |ms| ==> ms[i].MethodDecoration?
    ensures Replay(t, [c] + ms).metadata == Replay(t, ms + [c]).metadata
    ensures Replay(t, [c] + ms).controllers == Replay(t, ms + [c]).controllers
    decreases |ms|
  {
    if ms == [] {
      assert [c] + ms == ms + [c];
    } else {
      var prefix, m := ms[..|ms| - 1], ms[|ms| - 1];
      ClassDecorationCommutes(t, c, prefix);
      assert ([c] + ms)[..|[c] + ms| - 1] == [c] + prefix;
      assert (ms + [c])[..|ms + [c]| - 1] == ms;
      var y := Replay(t, prefix);
      StepsCommute(Replay(t, [c] + prefix), ControllerStep(y, c.name, c.baseRoute, c.cls), y, c, m);
    }
  }

  /**
    When every method decorator concerns the class being decorated, running the
    class decorator first or last leaves exactly the same tables, key order
    included.
   */
  lemma {:induction false} ClassDecorationCommutesOnOneClass(t: Tables, c: Decoration, ms: seq<Decoration>)
    requires c.ClassDecoration?
    requires forall i :: 0 <= i < |ms| ==> ms[i].MethodDecoration? && ms[i].name == c.name
    ensures Replay(t, [c] + ms) == Replay(t, ms + [c])
    decreases |ms|
  {
    if ms == [] {
      assert [c] + ms == ms + [c];
    } else {
      var prefix, m := ms[..|ms| - 1], ms[|ms| - 1];
      ClassDecorationCommutesOnOneClass(t, c, prefix);
      assert ([c] + ms)[..|[c] + ms| - 1] == [c] + prefix;
      assert (ms + [c])[..|ms + [c]| - 1] == ms;
      var y := Replay(t, prefix);
      StepsCommute(Replay(t, [c] + prefix), ControllerStep(y, c.name, c.baseRoute, c.cls), y, c, m);
    }
  }

  /** One exchange of a class decoration with a later method decoration. */
  lemma StepsCommute(left: Tables, right: Tables, y: Tables, c: Decoration, m: Decoration)
    requires c.ClassDecoration? && m.MethodDecoration?
    requires right == ControllerStep(y, c.name, c.baseRoute, c.cls)
    requires left.metadata == right.metadata && left.controllers == right.controllers
    ensures RouteStep(left, m.name, m.httpMethod, m.route, m.handler).metadata
         == ControllerStep(RouteStep(y, m.name, m.httpMethod, m.route, m.handler), c.name, c.baseRoute, c.cls).metadata
    ensures RouteStep(left, m.name, m.httpMethod, m.route, m.handler).controllers
         == ControllerStep(RouteStep(y, m.name, m.httpMethod, m.route, m.handler), c.name, c.baseRoute, c.cls).controllers
    ensures (left == right && m.name == c.name) ==>
              (RouteStep(left, m.name, m.httpMethod, m.route, m.handler)
               == ControllerStep(RouteStep(y, m.name, m.httpMethod, m.route, m.handler), c.name, c.baseRoute, c.cls))
  {
  }
}
