# Declarative routing registry: a Dafny model

This project models the core of a small TypeScript routing layer built on Express. Route handlers are declared as decorated methods of plain classes:

- `@Controller('/users')` is applied to a class.
- `@Get('/')`, `@Post('/')`, `@Patch('/:id')` and `@Put(...)` are applied to its methods.

At class-definition time the decorators fill two process-wide tables:

- `metadata`: controller name → `{baseRoute, routes}`.
- `controllerRegistry`: controller name → constructor.

`bootstrap(app)` later replays the tables once. For each controller, in key order, it:

1. constructs one instance;
2. registers every declared route on a fresh sub-router, with the handler bound to that instance;
3. mounts the sub-router at the controller's base route.

The model has four modules:

- `Metadata` (registry.dfy): the tables as values (`Tables`). It defines the two writers as step functions, `ControllerStep` for `Controller` and `RouteStep` for `createMethodDecorator`. It also defines `Replay`, which applies any sequence of decorator applications, and proves lemmas about what a replay leaves behind and about the order of the class decorator.
- `Decorators` (decorators.dfy): the class `Registry`. Its fields are the two tables plus their key order. Its methods `Controller`, `MethodDecorator`, `Get`, `Post`, `Patch` and `Put` change the fields in place, and each is proved equal to its step function.
- `Startup` (bootstrap.dfy): `Bootstrap` and the loops it runs (`WireAll` over controllers, `RegisterRoutes` over one controller's routes). They are proved against the reference definition `Wire`, and lemmas give the counts, the binding, the mount prefixes and the failure behaviour of a run.
- `Scenarios` (scenarios.dfy): three whole programs, each a sequence of decorator calls followed by `Bootstrap`. They cover the `UserController` of the source, an empty registry, and a class with routes but no `@Controller`.

How each thing is represented:

- **Key order.** `metadata` is a map together with `order`, the keys in insertion order. A `for...in` loop over a plain object visits string keys in insertion order; class names are never integer-like keys, so the numeric-keys-first rule does not apply.
- **Controller identity.** A class is identified by its name, passed explicitly; the source takes it from `target.name` / `target.constructor.name`.
- **Handlers and constructors.** Both are opaque ids.
- **Instances.** `new ControllerClass()` yields `InstanceRef(class, k)` for the k-th construction of the run. Distinct `k` means distinct objects.
- **Binding.** `handler.bind(instance)` is the pair `BoundHandler(handler, instance)`.
- **Express calls.** `router[method](route, bound)` is a `Registration`, and `app.use(baseRoute, router)` is a `Mount` carrying that router's registrations.
- **The thrown error.** When a name in `metadata` has no constructor, `new undefined()` throws a TypeError. The model returns this as the error `NotAConstructor(name)`, next to the constructions and mounts made before it.

`Bootstrap` has no `modifies` clause, so the verifier itself guarantees that it leaves both tables unchanged.

Where the code and the design description of the system differ, this model follows the code:

- The design asks bootstrap to fail fast without partial wiring. The code mounts every controller that precedes the one without a constructor, and then throws. `WireShape` and `MissingControllerApp` pin that behaviour.
- The design speaks of concatenating base path and route "with no double separators". The code hands `baseRoute` (to `app.use`) and `route` (to the router) to Express separately. The model therefore records them separately and states nothing about joined paths.

## Model

| member | source | states |
|---|---|---|
| Metadata.ControllerStep | index.ts:10-22 | On a name with no entry, creates one with the given base route and no routes. On an existing entry, changes only the base route and keeps its routes. Records the constructor under the name, last write winning. Every other name keeps its entry and constructor. The key order grows only when the name is new. One entry per name is preserved. |
| Metadata.RouteStep | index.ts:25-41 | Creates a default entry (`''`, no routes) when the name has none. Appends exactly one `{method, route, handler}` at the end: the length grows by one, the earlier routes and the base route are unchanged, and the last route is the new declaration. Other entries and the constructor table are unchanged. One entry per name is preserved. |
| Metadata.ReplayValid | index.ts:10-41 | Any sequence of decorator applications keeps exactly one entry per controller name, and the key order lists each key once. |
| Metadata.ReplayEntry | index.ts:14-38 | After any sequence of decorator applications, a name has an entry exactly when it had one or some application concerned it. Its base route is the one set by the last `Controller` for that name (otherwise the earlier one, or `''`). Its routes are the earlier routes followed by that name's method decorations, in application order. |
| Metadata.ClassDecorationCommutes | index.ts:14-38 | Running the class decorator before or after a run of method decorators leaves the same `metadata` and the same constructor table. |
| Metadata.ClassDecorationCommutesOnOneClass | index.ts:14-38 | When all the method decorators concern the decorated class, both orders leave identical tables, key order included (TypeScript runs the method decorators first). |
| Decorators.Registry.constructor | index.ts:4-8 | Both tables start empty. |
| Decorators.Registry.Controller | index.ts:10-22 | Updates the tables in place exactly as `ControllerStep` describes and keeps the one-entry-per-name invariant. |
| Decorators.Registry.MethodDecorator | index.ts:25-41 | Updates the tables in place exactly as `RouteStep` describes, for any method name. |
| Decorators.Registry.Get | index.ts:43 | A `RouteStep` whose method is `'get'`. |
| Decorators.Registry.Post | index.ts:44 | A `RouteStep` whose method is `'post'`. |
| Decorators.Registry.Patch | index.ts:45 | A `RouteStep` whose method is `'patch'`. |
| Decorators.Registry.Put | index.ts:46 | A `RouteStep` whose method is `'put'`. |
| Startup.BindRoutes | index.ts:55-57 | One registration per declaration, in declared order, with the same method, route and handler, each bound to the given instance. |
| Startup.RegisterRoutes | index.ts:53-57 | The `forEach` loop builds exactly the registrations `BindRoutes` gives. |
| Startup.WireAll | index.ts:49-60 | The `for...in` loop produces exactly the constructions, mounts and error of the reference run `Wire` over the names in key order. |
| Startup.Bootstrap | index.ts:48-61 | `bootstrap` over the registry's tables is the reference run `Wire` over its key order, and reads the tables without changing them. |
| Startup.WireShape | index.ts:49-59 | A run makes one construction per mount and at most one per entry. It completes exactly when every name has a constructor; an empty registry gives no construction, no mount and no error. Otherwise it throws for the first name without a constructor, after mounting every earlier name. |
| Startup.WireMount | index.ts:50-59 | The i-th mount holds the i-th controller's instance (its class, the i-th construction), sits at that controller's base route, and carries that controller's routes in declared order, all bound to that one instance. |
| Startup.InstancesDistinct | index.ts:52 | Different controllers of one run get different instances. |
| Startup.WireCounts | index.ts:49-59 | A run registers exactly the routes declared for the controllers it mounted. A complete run over N entries totalling M routes registers M routes. |
| Scenarios.UserControllerApp | index.ts:64-83 | `UserController` leads to one construction and one mount at `/users` with `get /`, `post /` and `patch /:id`, in that order, all bound to the single instance; there is no error. |
| Scenarios.EmptyApp | index.ts:48-61 | Bootstrap on empty tables makes no construction, no mount and raises no error. |
| Scenarios.MissingControllerApp | index.ts:50-52 | A class with routes but no `@Controller` makes bootstrap throw `NotAConstructor` for it, and the mount of the controller visited before it remains. |

## Left out

- Express itself is not modelled: `express()`, `express.Router()`, request matching, `app.use` path composition and `app.listen`. Its calls are recorded as `Registration` and `Mount` values.
- The `reflect-metadata` import is not modelled; it is unused.
- The TypeScript decorator machinery and the resolution of `target.name` / `target.constructor.name` are not modelled; the class name is an explicit argument.
- Names that coincide with members of `Object.prototype` (`constructor`, `toString`, `__proto__`, ...) are not modelled. Both tables are plain object literals, so for such a name `!metadata[name]` sees the inherited member and the code takes the update branch. The model treats the tables as dictionaries of their own keys only.
- `Function.prototype.bind` is modelled only as the pair `BoundHandler`. Later handler invocation and the handler bodies (`res.send`, `req.params`) are not modelled.
- Constructor bodies are not modelled: a recorded zero-argument constructor always succeeds. The only construction failure modelled is a name with no constructor recorded.
- Method names other than the four fixed ones are not modelled. `router[method]` would throw for a name Express lacks, but only `'get'`, `'post'`, `'patch'` and `'put'` are ever passed.
- `InstanceRef` serials are unique within one `Bootstrap` call only. Running bootstrap twice is outside the model: the source does not guard against it, and its effect on Express is not modelled.
