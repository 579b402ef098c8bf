/**
  The process-wide registry as mutable state, and the decorators that write to
  it. Applying a decorator is an explicit method call naming the class (the
  name its `target.name` or `target.constructor.name` would give), the class's
  constructor for `Controller`, and the unbound method for the method
  decorators.
 */
module Decorators {
  import opened Metadata

  class Registry {
    /** Keys of `metadata` in insertion order (the iteration order of `for...in`). */
    var order: seq<string>
    /** Controller name to base route and declared routes. */
    var metadata: map<string, Entry>
    /** Controller name to the constructor recorded by `Controller`. */
    var controllerRegistry: map<string, ClassId>

    /** The two tables as one value. */
    function Snapshot(): Tables
      reads this
    {
      Tables(order, metadata, controllerRegistry)
    }

    ghost predicate Valid()
      reads this
    {
      Snapshot().Valid()
    }

    /** Both tables as the module is loaded: empty. */
    constructor ()
      ensures Valid() && Snapshot() == EmptyTables
    {
      order, metadata, controllerRegistry := [], map[], map[];
    }

    /** `@Controller(baseRoute)` on the class `name` with constructor `cls`. */
    method Controller(baseRoute: string, name: string, cls: ClassId)
      requires Valid()
      modifies this
      ensures Valid()
      ensures Snapshot() == ControllerStep(old(Snapshot()), name, baseRoute, cls)
    {
      if name !in metadata {
        metadata := metadata[name := Entry(baseRoute, [])];
        order := order + [name];
      } else {
        metadata := metadata[name := metadata[name].(baseRoute := baseRoute)];
      }
      controllerRegistry := controllerRegistry[name := cls];
    }

    /**
      `createMethodDecorator(httpMethod)(route)` applied to the method `handler`
      of the class `name`.
     */
    method MethodDecorator(httpMethod: string, route: string, name: string, handler: HandlerId)
      requires Valid()
      modifies this
      ensures Valid()
      ensures Snapshot() == RouteStep(old(Snapshot()), name, httpMethod, route, handler)
    {
      if name !in metadata {
        metadata := metadata[name := Entry("", [])];
        order := order + [name];
      }
      var entry := metadata[name];
      metadata := metadata[name := entry.(routes := entry.routes + [RouteDecl(httpMethod, route, handler)])];
    }

    /** `@Get(route)`. */
    method Get(route: string, name: string, handler: HandlerId)
      requires Valid()
      modifies this
      ensures Valid()
      ensures Snapshot() == RouteStep(old(Snapshot()), name, "get", route, handler)
    {
      MethodDecorator("get", route, name, handler);
    }

    /** `@Post(route)`. */
    method Post(route: string, name: string, handler: HandlerId)
      requires Valid()
      modifies this
      ensures Valid()
      ensures Snapshot() == RouteStep(old(Snapshot()), name, "post", route, handler)
    {
      MethodDecorator("post", route, name, handler);
    }

    /** `@Patch(route)`. */
    method Patch(route: string, name: string, handler: HandlerId)
      requires Valid()
      modifies this
      ensures Valid()
      ensures Snapshot() == RouteStep(old(Snapshot()), name, "patch", route, handler)
    {
      MethodDecorator("patch", route, name, handler);
    }

    /** `@Put(route)`. */
    method Put(route: string, name: string, handler: HandlerId)
      requires Valid()
      modifies this
      ensures Valid()
      ensures Snapshot() == RouteStep(old(Snapshot()), name, "put", route, handler)
    {
      MethodDecorator("put", route, name, handler);
    }
  }
}
