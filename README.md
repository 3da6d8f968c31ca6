# Hotwire container, modelled in Dafny

Hotwire is a small PHP dependency-injection container. It is a mutable table
from string keys to *registrations*. A registration uses one of three
strategies:

- a **factory registration** runs its producer, with the container as its
  argument, every time it is invoked;
- an **instance registration** returns one stored object;
- a **deferred instance registration** runs its producer when it is invoked
  while its `instantiated` flag is still false. It then caches the result
  and sets the flag, and later invocations return the cached object.

`register` stores a factory. `registerSingleton` stores a deferred instance
when its argument is callable and an instance otherwise. `get`, `lazy`,
`factory` and `__get` look keys up through `find`, which fails on a missing
key. `has` tests membership directly and never fails.

The project has two files.

- `hotwire.dfy`, module `Hotwire`.
  - A pure semantics. `RegistrationState` is one registration's state as a
    value. A deferred instance's cache is `None` until its producer has run.
    `Invoked` is one invocation, `Repeat` is any number of invocations, and
    `LazyView` and `SingletonState` are the states that `lazy()` and
    `registerSingleton` produce. The lemmas state each strategy's guarantee
    over any number of invocations.
  - A heap model. The source's classes are Dafny classes with the source's
    fields, and every invoking method is proved to follow `Invoked`.
    `Registration` is a datatype over the three classes: PHP picks
    `__invoke`, `lazy` and `factory` by the object's class, and here a match
    does. `Container` holds its `registrations` map and updates it in place.
    Its invariant `Valid` says that every stored registration passes this
    container to its producer, that no two keys share a deferred instance,
    and that every registered instance is an object its runtime has already
    allocated.
- `scenarios.dfy`, module `HotwireScenarios`: client code that does what each
  of the fourteen unit tests in `tests/unit/ContainerTest.php` does, plus a few
  further uses. Each method's postcondition is that test's assertion, proved
  from the container's contracts alone.

Producers are opaque ids (`ProducerId`). The code they stand for is not
modelled. A `Runtime` stands for the PHP process and its object allocator.
Each container is built over one runtime (`Container.rt`), and a
registration is invoked only with its container's runtime. Running a
producer is `Runtime.Run`: it logs `Call(producer, container)` in the ghost
sequence `calls` and returns a fresh object from the counter `next`.
`Runtime.New` allocates an object outside any producer, as the tests'
`new Thing` does. `registerSingleton` accepts as an instance only an object
the runtime has already allocated, and `Valid` keeps that true. So within
one runtime no producer run returns an object that already existed, and
the log shows how often each producer ran and which container it was given.
Object identity (`===`) is equality of these values. For registrations it
is reference equality of the Dafny objects. `is_callable` is replaced by the argument datatype
`SingletonArg = Callable(producer) | Plain(value)`.

## Model

| member | source | states |
|---|---|---|
| `Hotwire.Invoked` | src/Container.php:13-47 | One invocation runs the producer exactly for a factory or an uninstantiated deferred instance. That run returns a fresh value and logs the call with the owning container. Only invoking an uninstantiated deferred instance changes the registration, and it caches the value it returns. An instance or an instantiated deferred instance returns what it holds and leaves the world unchanged. |
| `Hotwire.Repeat` | src/Container.php:13-47 | `n` invocations in a row return `n` values. They only ever append to the call log, and the fresh-value counter never goes back. |
| `Hotwire.FactoryFreshEachTime` | src/Container.php:13 | `n` invocations of a factory run its producer `n` times, each time with its owner. They return `n` pairwise-distinct values and leave the registration unchanged. |
| `Hotwire.InstanceAlwaysSame` | src/Container.php:25 | Any number of invocations of an instance return its one value and change neither the registration nor the world. |
| `Hotwire.DeferredRunsAtMostOnce` | src/Container.php:41-47 | Over any number of invocations, a deferred instance runs its producer at most once. It runs it exactly once if it was uninstantiated and it is invoked at all, and then it is instantiated with that value. Every invocation returns the cached value. |
| `Hotwire.SingletonState` | src/Container.php:60-66 | The state `registerSingleton` stores is a deferred instance exactly when the argument is callable. That state runs its producer on first use, and its producer and owner are the argument and the container. A plain argument gives an instance of exactly that value. |
| `Hotwire.SingletonAlwaysSame` | src/Container.php:60-66 | Whichever branch `registerSingleton` takes, repeated invocations return one value, and the producer runs at most once. With a plain value it never runs. |
| `Hotwire.LazyView` | src/Container.php:14 | The lazy view is never a factory. Of a factory it is an uninstantiated deferred instance with the same producer and owner. Of anything else it is the registration itself, so taking it twice is taking it once. |
| `Hotwire.LazyViewCaches` | src/Container.php:49 | Any number of invocations of any registration's lazy view return one value and run the producer at most once. This holds over a factory too. |
| `Hotwire.Runtime.Run` | src/Container.php:13 | A producer run returns the next fresh value and appends `Call(p, c)` to the log. |
| `Hotwire.Runtime.New` | tests/unit/ContainerTest.php:77 | Allocating an object outside any producer returns the next fresh value and runs no producer. |
| `Hotwire.FactoryRegistration.constructor` | src/Container.php:8-11 | A new factory registration holds the given container and producer. |
| `Hotwire.FactoryRegistration.Invoke` | src/Container.php:13 | Runs the producer once with the registration's container and that container's runtime. It returns the fresh value and follows `Invoked`. |
| `Hotwire.FactoryRegistration.Lazy` | src/Container.php:14 | Allocates a new deferred instance whose state is the factory's lazy view. No producer runs. |
| `Hotwire.InstanceRegistration.constructor` | src/Container.php:21-23 | A new instance registration holds the given object. |
| `Hotwire.InstanceRegistration.Invoke` | src/Container.php:25 | In any world, invoking an instance registration is the `Invoked` step that returns the held object and changes nothing. |
| `Hotwire.DeferredInstanceRegistration.constructor` | src/Container.php:36-39 | A new deferred instance is uninstantiated and holds the given producer and container. |
| `Hotwire.DeferredInstanceRegistration.Invoke` | src/Container.php:41-47 | If already instantiated, it returns the cached value and changes nothing. Otherwise it runs the producer once with its container and caches and returns the result. Either way it ends up instantiated with the returned value, and it follows `Invoked`. |
| `Hotwire.Registration.Invoke` | src/Container.php:13-47 | Invoking any stored registration follows `Invoked` and changes only the runtime and the registration's own deferred object. |
| `Hotwire.Registration.Lazy` | src/Container.php:14-49 | An instance or a deferred instance returns the very same registration. A factory returns a newly allocated deferred instance. In every case the result's state is `LazyView` of the registration's state. |
| `Hotwire.Registration.AsFactory` | src/Container.php:15-50 | Succeeds exactly for a factory registration and then returns that registration. An instance or a deferred instance fails with UnsupportedOperation. |
| `Hotwire.Container.constructor` | src/Container.php:54 | A new container over the given runtime satisfies `Valid` and has no key. |
| `Hotwire.Container.Register` | src/Container.php:56-58 | Afterwards `has(key)` holds, and the entry is a new factory registration owned by this container. Every other key's entry is unchanged. `Valid` is kept. |
| `Hotwire.Container.RegisterSingleton` | src/Container.php:60-66 | An instance must be an object the runtime has already allocated. Afterwards `has(key)` holds. The entry is a new uninstantiated deferred instance for a callable and a new instance otherwise, with state `SingletonState`. Every other key's entry is unchanged. `Valid` is kept. |
| `Hotwire.Container.Has` | src/Container.php:68-70 | `has` is true exactly when `find` succeeds. |
| `Hotwire.Container.Find` | src/Container.php:88-93 | Succeeds exactly on a registered key and then returns the stored registration itself. Otherwise it fails with RegistrationNotFound. |
| `Hotwire.Container.Get` | src/Container.php:72-74 | A missing key fails with RegistrationNotFound and nothing changes. Otherwise the stored registration is invoked as `Invoked` says. Every producer run passes this container, the map is unchanged, and no other key's registration changes. `Valid` is kept, so no registered instance can equal a value a later run returns. |
| `Hotwire.Container.Lazy` | src/Container.php:76-78 | A missing key fails with RegistrationNotFound. Otherwise the result is the lazy view of the stored registration: the same object for a singleton, a new deferred instance for a factory. The result runs in this container's runtime. The map is not changed and no producer runs, because the method is given no runtime and modifies nothing. |
| `Hotwire.Container.Factory` | src/Container.php:80-82 | A missing key fails with RegistrationNotFound. A singleton of either kind fails with UnsupportedOperation. A factory registration succeeds and returns the stored registration itself, which runs in this container's runtime. |
| `Hotwire.Container.PropertyAccess` | src/Container.php:84-86 | `__get(key)` has exactly `get(key)`'s contract. |
| `HotwireScenarios.HasIsFalseWithoutRegistration` | tests/unit/ContainerTest.php:18-20 | `has` is false on a new container. |
| `HotwireScenarios.HasIsTrueWithRegistration` | tests/unit/ContainerTest.php:22-25 | `has` is true after `registerSingleton`. |
| `HotwireScenarios.GetAndPropertyAccessAgree` | tests/unit/ContainerTest.php:27-30 | `get` and property access return the identical object. |
| `HotwireScenarios.FactoryReceivesContainer` | tests/unit/ContainerTest.php:35-41 | A factory's producer is run once, with the container it was registered in. |
| `HotwireScenarios.FactoryCreatesNewInstances` | tests/unit/ContainerTest.php:43-54 | Two resolutions of a factory registration give distinct objects. |
| `HotwireScenarios.SingletonFactoryReceivesContainer` | tests/unit/ContainerTest.php:56-62 | A singleton producer is run once, with the container it was registered in. |
| `HotwireScenarios.SingletonFactoryReturnsSameInstance` | tests/unit/ContainerTest.php:64-74 | Two resolutions of a singleton producer give the identical object. |
| `HotwireScenarios.SingletonInstanceReturnsSameInstance` | tests/unit/ContainerTest.php:76-85 | Two resolutions of a singleton instance return that instance both times. |
| `HotwireScenarios.FactoryValueIsNotAnInstance` | src/Container.php:13 | A factory's result differs from an instance registered earlier in the same container. |
| `HotwireScenarios.LazyDoesNotInstantiateUntilInvoked` | tests/unit/ContainerTest.php:90-103 | The call log is empty after `lazy`. It holds exactly one call, with this container, after the result is invoked. |
| `HotwireScenarios.LazyFactoryReturnsCorrectInstance` | tests/unit/ContainerTest.php:105-112 | Invoking the lazy view of a factory runs its producer once, with this container, and returns the object that run made. |
| `HotwireScenarios.LazyFactoryReturnsSameInstance` | tests/unit/ContainerTest.php:114-125 | Invoking the lazy view of a factory twice gives the identical object. |
| `HotwireScenarios.SingletonSharedWithLazyView` | src/Container.php:41-49 | `get`, then the lazy view, then `get` again on a singleton producer all return one object. The call log holds exactly one call, with this container. |
| `HotwireScenarios.FactoryCreatesInstances` | tests/unit/ContainerTest.php:130-138 | Invoking the factory view runs the producer once, with this container, and returns the object that run made. |
| `HotwireScenarios.FactoryViewCreatesDifferentInstances` | tests/unit/ContainerTest.php:140-151 | Invoking the factory view of a factory registration twice gives distinct objects. |
| `HotwireScenarios.FactoryFailsForSingletons` | tests/unit/ContainerTest.php:153-170 | `factory` fails with UnsupportedOperation for both kinds of singleton. |
| `HotwireScenarios.UnregisteredKeyNotFound` | src/Container.php:88-93 | `get`, `lazy` and `factory` on an unregistered key all fail with RegistrationNotFound. |
| `HotwireScenarios.LastRegistrationWins` | src/Container.php:56-66 | Registering a key again replaces its entry. Another key's factory view is the very same registration as before, with its own producer. |

## Left out

- The `\Psr\Container\ContainerInterface` that `Container` implements is not part of this model. Neither is the `RegistrationNotFoundException` class. Its throw is the error value `RegistrationNotFound`.
- The two `\Exception`s that `factory()` throws on an instance and on a deferred instance are one error value, `UnsupportedOperation`. Their message strings are not modelled.
- Producer bodies and their side effects are not modelled. That includes a producer that registers into the container while it runs, which the model does not cover. A producer is an id, and each run returns a fresh object.
- A producer that throws is not modelled. PHP would pass that exception on to the caller of `get` or of the returned callable.
- `is_callable` is not modelled. The caller's choice is the `SingletonArg` tag.
- `__get` is modelled only as an alias of `get`. PHP's magic property dispatch is not.
- PHP's `isset` also treats a stored `null` as missing. The container never stores `null`, so `has` is modelled as map membership.
- DeferredRunsAtMostOnce: assumes that no producer resolves its own key while it runs. The source sets `instantiated` only after the producer returns (src/Container.php:43-44). A producer that resolves its own key therefore runs again, or recurses without end. Producers that call back into the container are not modelled.
- Freshness holds within one runtime only. Containers built over two different runtimes stand for two processes, and their values may coincide.
- The model assumes a single thread, as the source does. The deferred check-then-set is not safe under concurrent first access, and that case is not modelled.
- Keys are any string. The source does not check that a key is non-empty, and neither does the model.
- Per-class `lazy()` and `factory()` methods that only return `$this` or throw are not separate members. They are the cases of `Registration.Lazy` and `Registration.AsFactory`. 
