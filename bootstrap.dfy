/**
  `bootstrap(app)`: walks the metadata table in key order; for each controller
  it constructs one instance, registers every declared route on a fresh
  sub-router with the handler bound to that instance, and mounts the
  sub-router at the controller's base route.

  The HTTP library is outside the model: what bootstrap hands to it is
  recorded as values. A construction is an `InstanceRef` (the k-th
  construction of the run has serial k, so distinct serials are distinct
  objects), `handler.bind(instance)` is a `BoundHandler`, `router[method](...)`
  is a `Registration`, and `app.use(baseRoute, router)` is a `Mount`.
 */
module Startup {
  import opened Metadata
  import opened Decorators

  datatype Option<T> = None | Some(value: T)

  /** The object `new ControllerClass()` returns: its class and its place among the constructions. */
  datatype InstanceRef = InstanceRef(cls: ClassId, serial: nat)

  /** `handler.bind(instance)`. */
  datatype BoundHandler = BoundHandler(handler: HandlerId, instance: InstanceRef)

  /** One call `router[httpMethod](route, bound)` on a sub-router. */
  datatype Registration = Registration(httpMethod: string, route: string, bound: BoundHandler)

  /** One call `app.use(prefix, router)`, with the registrations the sub-router received. */
  datatype Mount = Mount(prefix: string, router: seq<Registration>)

  /** `new ControllerClass()` with no constructor recorded under the name throws a TypeError. */
  datatype BootError = NotAConstructor(controller: string)

  /** Everything a bootstrap run does: the constructions, the mounts, and the error it threw, if any. */
  datatype Wiring = Wiring(instances: seq<InstanceRef>, mounts: seq<Mount>, error: Option<BootError>)

  /** Binds one declaration to `instance`. */
  function Bind(d: RouteDecl, instance: InstanceRef): Registration {
    Registration(d.httpMethod, d.route, BoundHandler(d.handler, instance))
  }

  /**
    The registrations `routes.forEach(...)` makes on a sub-router: one per
    declaration, in declared order, each bound to `instance`.
   */
  function BindRoutes(routes: seq<RouteDecl>, instance: InstanceRef): (r: seq<Registration>)
    ensures |r| == |routes|
    ensures forall j :: 0 <= j < |routes| ==>
      r[j].httpMethod == routes[j].httpMethod && r[j].route == routes[j].route
      && r[j].bound.handler == routes[j].handler && r[j].bound.instance == instance
    decreases |routes|
  {
    if routes == [] then [] else [Bind(routes[0], instance)] + BindRoutes(routes[1..], instance)
  }

  /**
    The reference definition of a bootstrap run over the controller names
    `names` (visited in this order), whose first construction gets `serial`.
    It stops at the first name without a recorded constructor.
   */
  function Wire(names: seq<string>, metadata: map<string, Entry>, controllers: map<string, ClassId>, serial: nat): Wiring
    requires forall n :: n in names ==> n in metadata
    decreases |names|
  {
    if names == [] then Wiring([], [], None)
    else if names[0] !in controllers then Wiring([], [], Some(NotAConstructor(names[0])))
    else
      var instance := InstanceRef(controllers[names[0]], serial);
      var entry := metadata[names[0]];
      var rest := Wire(names[1..], metadata, controllers, serial + 1);
      Wiring([instance] + rest.instances, [Mount(entry.baseRoute, BindRoutes(entry.routes, instance))] + rest.mounts, rest.error)
  }

  /** The effects `done` followed by those of `rest`. */
  function Then(done: Wiring, rest: Wiring): Wiring {
    Wiring(done.instances + rest.instances, done.mounts + rest.mounts, rest.error)
  }

  /**
    `routes.forEach(...)` on a fresh sub-router: registers each declaration, in
    declared order, with its handler bound to `instance`.
   */
  method RegisterRoutes(routes: seq<RouteDecl>, instance: InstanceRef) returns (router: seq<Registration>)
    ensures router == BindRoutes(routes, instance)
  {
    router := [];
    var j := 0;
    while j < |routes|
      invariant 0 <= j <= |routes|
      invariant router + BindRoutes(routes[j..], instance) == BindRoutes(routes, instance)
    {
      var d := routes[j];
      assert routes[j..][1..] == routes[j + 1..];
      router := router + [Registration(d.httpMethod, d.route, BoundHandler(d.handler, instance))];
      j := j + 1;
    }
    assert routes[j..] == [];
  }

  /** A run stops at a name without a constructor, keeping what was done before it. */
  lemma WireStops(names: seq<string>, metadata: map<string, Entry>, controllers: map<string, ClassId>, i: nat, done: Wiring)
    requires forall n :: n in names ==> n in metadata
    requires i < |names| && names[i] !in controllers
    ensures Then(done, Wire(names[i..], metadata, controllers, i)) == Wiring(done.instances, done.mounts, Some(NotAConstructor(names[i])))
  {
  }

  /** One controller of a run, taken off the front of the names still to visit. */
  lemma WireStep(names: seq<string>, metadata: map<string, Entry>, controllers: map<string, ClassId>, i: nat, done: Wiring,
                 instance: InstanceRef, mount: Mount)
    requires forall n :: n in names ==> n in metadata
    requires i < |names| && names[i] in controllers
    requires instance == InstanceRef(controllers[names[i]], i)
    requires mount == Mount(metadata[names[i]].baseRoute, BindRoutes(metadata[names[i]].routes, instance))
    ensures Then(done, Wire(names[i..], metadata, controllers, i))
         == Then(Wiring(done.instances + [instance], done.mounts + [mount], None), Wire(names[i + 1..], metadata, controllers, i + 1))
  {
  }

  /**
    `bootstrap(app)`. It only reads the registry: the tables are the same
    afterwards (the method has no `modifies` clause).
   */
  method Bootstrap(registry: Registry) returns (instances: seq<InstanceRef>, mounts: seq<Mount>, error: Option<BootError>)
    requires registry.Valid()
    ensures Wiring(instances, mounts, error) == Wire(registry.order, registry.metadata, registry.controllerRegistry, 0)
  {
    instances, mounts, error := WireAll(registry.order, registry.metadata, registry.controllerRegistry);
  }

  /**
    The loop of `bootstrap`: visits the controller names in `names` in order;
    for each, constructs one instance, registers its routes on a sub-router and
    mounts it; throws at the first name without a constructor.
   */
  method WireAll(names: seq<string>, metadata: map<string, Entry>, controllers: map<string, ClassId>)
    returns (instances: seq<InstanceRef>, mounts: seq<Mount>, error: Option<BootError>)
    requires forall n :: n in names ==> n in metadata
    ensures Wiring(instances, mounts, error) == Wire(names, metadata, controllers, 0)
  {
    instances, mounts, error := [], [], None;
    var i := 0;
    assert names[i..] == names;
    while i < |names|
      invariant 0 <= i <= |names| && |instances| == i
      invariant Wire(names, metadata, controllers, 0)
             == Then(Wiring(instances, mounts, None), Wire(names[i..], metadata, controllers, i))
    {
      var name := names[i];
      var entry := metadata[name];
      if name !in controllers {
        WireStops(names, metadata, controllers, i, Wiring(instances, mounts, None));
        error := Some(NotAConstructor(name));
        return;
      }
      var instance := InstanceRef(controllers[name], i);
      var router := RegisterRoutes(entry.routes, instance);
      var mount := Mount(entry.baseRoute, router);
      WireStep(names, metadata, controllers, i, Wiring(instances, mounts, None), instance, mount);
      mounts := mounts + [mount];
      instances := instances + [instance];
      i := i + 1;
    }
    assert names[i..] == [];
  }

  /** The number of routes registered over all the mounts. */
  function RegistrationCount(mounts: seq<Mount>): nat
    decreases |mounts|
  {
    if mounts == [] then 0 else |mounts[0].router| + RegistrationCount(mounts[1..])
  }

  /** The number of routes declared for the controllers `names`. */
  function RouteTotal(names: seq<string>, metadata: map<string, Entry>): nat
    requires forall n :: n in names ==> n in metadata
    decreases |names|
  {
    if names == [] then 0 else |metadata[names[0]].routes| + RouteTotal(names[1..], metadata)
  }

  /**
    Shape of a run: one construction per mount; the run completes (mounting
    every controller) exactly when every name has a constructor; otherwise it
    throws for the first name without one, after mounting all the names
    before it.
   */
  lemma {:induction false} WireShape(names: seq<string>, metadata: map<string, Entry>, controllers: map<string, ClassId>, serial: nat)
    requires forall n :: n in names ==> n in metadata
    ensures var w := Wire(names, metadata, controllers, serial);
      && |w.instances| == |w.mounts| <= |names|
      && (forall i :: 0 <= i < |w.mounts| ==> names[i] in controllers)
      && (w.error.None? <==> |w.mounts| == |names|)
      && (w.error.None? <==> forall n :: n in names ==> n in controllers)
      && (w.error.Some? ==> names[|w.mounts|] !in controllers && w.error.value == NotAConstructor(names[|w.mounts|]))
    decreases |names|
  {
    if names != [] && names[0] in controllers {
      WireShape(names[1..], metadata, controllers, serial + 1);
      var rest := Wire(names[1..], metadata, controllers, serial + 1);
      assert forall i :: 1 <= i < |names| ==> names[i] == names[1..][i - 1];
      if rest.error.Some? {
        assert names[1..][|rest.mounts|] == names[|rest.mounts| + 1];
        assert names[|rest.mounts| + 1] in names;
      }
    }
  }

  /**
    The i-th mount of a run: the i-th controller's single instance, mounted at
    its base route, with its declared routes in order, all bound to that
    instance.
   */
  lemma {:induction false} WireMount(names: seq<string>, metadata: map<string, Entry>, controllers: map<string, ClassId>, serial: nat, i: nat)
    requires forall n :: n in names ==> n in metadata
    requires i < |Wire(names, metadata, controllers, serial).mounts|
    ensures var w := Wire(names, metadata, controllers, serial);
      && i < |names| && i < |w.instances| && names[i] in controllers
      && w.instances[i] == InstanceRef(controllers[names[i]], serial + i)
      && w.mounts[i] == Mount(metadata[names[i]].baseRoute, BindRoutes(metadata[names[i]].routes, w.instances[i]))
    decreases |names|
  {
    WireShape(names, metadata, controllers, serial);
    if i > 0 {
      WireMount(names[1..], metadata, controllers, serial + 1, i - 1);
    }
  }

  /** Every controller mounted by a run gets its own instance. */
  lemma InstancesDistinct(names: seq<string>, metadata: map<string, Entry>, controllers: map<string, ClassId>, i: nat, j: nat)
    requires forall n :: n in names ==> n in metadata
    requires i < j < |Wire(names, metadata, controllers, 0).instances|
    ensures Wire(names, metadata, controllers, 0).instances[i] != Wire(names, metadata, controllers, 0).instances[j]
  {
    WireShape(names, metadata, controllers, 0);
    WireMount(names, metadata, controllers, 0, i);
    WireMount(names, metadata, controllers, 0, j);
  }

  /**
    A run registers exactly the routes declared for the controllers it
    mounted; a complete run registers every declared route.
   */
  lemma {:induction false} WireCounts(names: seq<string>, metadata: map<string, Entry>, controllers: map<string, ClassId>, serial: nat)
    requires forall n :: n in names ==> n in metadata
    ensures |Wire(names, metadata, controllers, serial).mounts| <= |names|
    ensures RegistrationCount(Wire(names, metadata, controllers, serial).mounts)
         == RouteTotal(names[..|Wire(names, metadata, controllers, serial).mounts|], metadata)
    ensures Wire(names, metadata, controllers, serial).error.None? ==>
              RegistrationCount(Wire(names, metadata, controllers, serial).mounts) == RouteTotal(names, metadata)
    decreases |names|
  {
    WireShape(names, metadata, controllers, serial);
    var w := Wire(names, metadata, controllers, serial);
    if names != [] && names[0] in controllers {
      WireCounts(names[1..], metadata, controllers, serial + 1);
      var rest := Wire(names[1..], metadata, controllers, serial + 1);
      assert w.mounts[1..] == rest.mounts;
      assert names[..|w.mounts|][1..] == names[1..][..|rest.mounts|];
    }
    assert names[..|names|] == names;
  }
}
