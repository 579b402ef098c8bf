/**
  Whole-program runs: the decorators of a class definition applied in the
  order TypeScript runs them (method decorators first, then the class
  decorator), followed by `bootstrap`.
 */
module Scenarios {
  import opened Metadata
  import opened Decorators
  import opened Startup

  const UserControllerClass: ClassId := 1
  const FindAll: HandlerId := 1
  const Create: HandlerId := 2
  const Update: HandlerId := 3

  /**
    `UserController`: `@Get('/') findAll`, `@Post('/') create`,
    `@Patch('/:id') update`, then `@Controller('/users')`, then `bootstrap`.
    One instance is constructed, and one sub-router with the three routes, in
    declaration order and all bound to that instance, is mounted at '/users'.
   */
  method UserControllerApp() returns (instances: seq<InstanceRef>, mounts: seq<Mount>, error: Option<BootError>)
    ensures error == None
    ensures instances == [InstanceRef(UserControllerClass, 0)]
    ensures mounts == [Mount("/users", [
      Registration("get", "/", BoundHandler(FindAll, instances[0])),
      Registration("post", "/", BoundHandler(Create, instances[0])),
      Registration("patch", "/:id", BoundHandler(Update, instances[0]))])]
  {
    var registry := new Registry();
    registry.Get("/", "UserController", FindAll);
    registry.Post("/", "UserController", Create);
    registry.Patch("/:id", "UserController", Update);
    registry.Controller("/users", "UserController", UserControllerClass);
    var routes := [RouteDecl("get", "/", FindAll), RouteDecl("post", "/", Create), RouteDecl("patch", "/:id", Update)];
    assert registry.order == ["UserController"];
    assert registry.metadata["UserController"] == Entry("/users", routes);
    instances, mounts, error := Bootstrap(registry);
    var instance := InstanceRef(UserControllerClass, 0);
    assert BindRoutes(routes, instance) == [Bind(routes[0], instance), Bind(routes[1], instance), Bind(routes[2], instance)];
    assert Wire(["UserController"][1..], registry.metadata, registry.controllerRegistry, 1) == Wiring([], [], None);
  }

  /** `bootstrap` with no decorated class: no construction, no mount, no error. */
  method EmptyApp() returns (instances: seq<InstanceRef>, mounts: seq<Mount>, error: Option<BootError>)
    ensures instances == [] && mounts == [] && error == None
  {
    var registry := new Registry();
    instances, mounts, error := Bootstrap(registry);
  }

  /**
    A controller `Posts` with one route, then a class `Comments` that declares
    a route but never receives `@Controller`: `bootstrap` mounts `Posts`, then
    throws on `new ControllerClass()` for `Comments`; the mount already made
    stays.
   */
  method MissingControllerApp() returns (instances: seq<InstanceRef>, mounts: seq<Mount>, error: Option<BootError>)
    ensures error == Some(NotAConstructor("Comments"))
    ensures instances == [InstanceRef(2, 0)]
    ensures mounts == [Mount("/posts", [Registration("get", "/", BoundHandler(4, InstanceRef(2, 0)))])]
  {
    var registry := new Registry();
    registry.Get("/", "Posts", 4);
    assert registry.Snapshot() == Tables(["Posts"], map["Posts" := Entry("", [RouteDecl("get", "/", 4)])], map[]);
    registry.Controller("/posts", "Posts", 2);
    assert registry.Snapshot() == Tables(["Posts"], map["Posts" := Entry("/posts", [RouteDecl("get", "/", 4)])], map["Posts" := 2]);
    registry.Get("/", "Comments", 5);
    assert registry.Snapshot() == MissingControllerTables() by {
      assert "Comments" != "Posts";
    }
    instances, mounts, error := Bootstrap(registry);
    MissingControllerWiring();
  }

  /** The tables after the three decorators of `MissingControllerApp`. */
  function MissingControllerTables(): Tables {
    Tables(["Posts", "Comments"],
           map["Posts" := Entry("/posts", [RouteDecl("get", "/", 4)]), "Comments" := Entry("", [RouteDecl("get", "/", 5)])],
           map["Posts" := 2])
  }

  /** Bootstrap over those tables mounts `Posts`, then throws for `Comments`. */
  lemma MissingControllerWiring()
    ensures var t := MissingControllerTables();
      Wire(t.order, t.metadata, t.controllers, 0)
        == Wiring([InstanceRef(2, 0)], [Mount("/posts", [Registration("get", "/", BoundHandler(4, InstanceRef(2, 0)))])],
                  Some(NotAConstructor("Comments")))
  {
    var t := MissingControllerTables();
    assert t.order[1..] == ["Comments"];
    var posts := t.metadata["Posts"].routes;
    assert BindRoutes(posts, InstanceRef(2, 0)) == [Bind(posts[0], InstanceRef(2, 0))];
  }
}
