/**
  A model of the Hotwire dependency-injection container: a mutable table from
  string keys to registrations, and the three registration strategies
  (factory, instance, deferred instance).

  Producers (the PHP callables handed to `register` and `registerSingleton`)
  are opaque ids. Running one is the business of a `Runtime`, which logs the
  call together with the container it was given and hands out a fresh value
  from a counter, so that two runs never return the same value. One runtime
  stands for one PHP process: each container is built over one, and every
  object registered as an instance was allocated by it beforehand.

  The module has two halves. The first is a pure semantics: the state of one
  registration as a value, what one invocation does to it, what any number of
  invocations do, and the lemmas that state the strategies' guarantees. The
  second is the heap model: the classes the source defines, whose methods are
  proved to follow the pure semantics.
*/
module Hotwire {

  // ---------------------------------------------------------------------------
  // Values, producers, errors

  /** An object produced by a producer or registered as an instance, by identity. */
  type Value = nat

  /** A PHP callable passed as a producer, by identity. */
  type ProducerId = nat

  datatype Option<T> = None | Some(value: T)

  /** The two exceptions the container raises. */
  datatype Error = RegistrationNotFound | UnsupportedOperation

  datatype Result<T> = Ok(value: T) | Err(error: Error)

  /** The argument of `registerSingleton`: `is_callable` decides between the two. */
  datatype SingletonArg = Callable(producer: ProducerId) | Plain(value: Value)

  /** One run of a producer, with the container it was passed. */
  datatype Call = Call(producer: ProducerId, container: Container)

  /** What the rest of the program has observed: the next fresh value and every producer run so far. */
  datatype World = World(next: Value, calls: seq<Call>)

  /** The world after producer `p` has run once with container `c`; it returned `w.next`. */
  function AfterCall(w: World, p: ProducerId, c: Container): World
  {
    World(w.next + 1, w.calls + [Call(p, c)])
  }

  // ---------------------------------------------------------------------------
  // Pure semantics of one registration

  /**
    The state of a registration. A deferred instance's cache is `None` until its
    producer has run (`instantiated == false` in the source) and `Some(v)` after.
  */
  datatype RegistrationState =
    | FactoryState(owner: Container, producer: ProducerId)
    | InstanceState(instance: Value)
    | DeferredState(owner: Container, producer: ProducerId, cache: Option<Value>)

  /** The result of one invocation: the value returned, the registration's new state, the new world. */
  datatype Outcome = Outcome(value: Value, state: RegistrationState, world: World)

  /** Whether invoking a registration in state `s` runs its producer. */
  predicate RunsProducer(s: RegistrationState)
  {
    s.FactoryState? || (s.DeferredState? && s.cache.None?)
  }

  /** One invocation (`__invoke`) of a registration in state `s`. */
  function Invoked(s: RegistrationState, w: World): (o: Outcome)
    // the producer runs exactly when the strategy calls for it, with the owning container
    ensures RunsProducer(s) ==> o.value == w.next && o.world == AfterCall(w, s.producer, s.owner)
    ensures !RunsProducer(s) ==> o.world == w
    // nothing but invoking an uninstantiated deferred instance changes the registration
    ensures s.DeferredState? && s.cache.None? ==> o.state == s.(cache := Some(o.value))
    ensures !(s.DeferredState? && s.cache.None?) ==> o.state == s
    // an instance and an instantiated deferred instance return what they hold
    ensures !RunsProducer(s) ==> o.value == (if s.InstanceState? then s.instance else s.cache.value)
    ensures o.state.DeferredState? ==> o.state.cache == Some(o.value)
  {
    match s
    case FactoryState(c, p) => Outcome(w.next, s, AfterCall(w, p, c))
    case InstanceState(v) => Outcome(v, s, w)
    case DeferredState(c, p, cache) =>
      if cache.Some? then Outcome(cache.value, s, w)
      else Outcome(w.next, DeferredState(c, p, Some(w.next)), AfterCall(w, p, c))
  }

  /** The values returned by `n` invocations in a row, and the final state and world. */
  datatype Run = Run(values: seq<Value>, state: RegistrationState, world: World)

  /** `n` consecutive invocations of a registration in state `s`. */
  function Repeat(s: RegistrationState, w: World, n: nat): (r: Run)
    ensures |r.values| == n
    ensures w.calls <= r.world.calls
    ensures w.next <= r.world.next
    decreases n
  {
    if n == 0 then Run([], s, w)
    else
      var o := Invoked(s, w);
      var rest := Repeat(o.state, o.world, n - 1);
      Run([o.value] + rest.values, rest.state, rest.world)
  }

  /** A run behaves as a singleton: one value throughout, and at most one producer call. */
  ghost predicate ActsAsSingleton(r: Run, w: World)
  {
    && (forall i | 0 <= i < |r.values| :: r.values[i] == r.values[0])
    && |r.world.calls| <= |w.calls| + 1
  }

  /** A factory registration runs its producer once per invocation, with its owner, and never returns a value twice. */
  lemma {:induction false} FactoryFreshEachTime(c: Container, p: ProducerId, w: World, n: nat)
    ensures var r := Repeat(FactoryState(c, p), w, n);
      && r.state == FactoryState(c, p)
      && r.world == World(w.next + n, w.calls + seq(n, _ => Call(p, c)))
      && (forall i | 0 <= i < n :: r.values[i] == w.next + i)
      && (forall i, j | 0 <= i < j < n :: r.values[i] != r.values[j])
    decreases n
  {
    if n > 0 {
      FactoryFreshEachTime(c, p, AfterCall(w, p, c), n - 1);
      assert w.calls + [Call(p, c)] + seq(n - 1, _ => Call(p, c)) == w.calls + seq(n, _ => Call(p, c));
    }
  }

  /** An instance registration returns its value every time and changes nothing. */
  lemma {:induction false} InstanceAlwaysSame(v: Value, w: World, n: nat)
    ensures var r := Repeat(InstanceState(v), w, n);
      && r.state == InstanceState(v)
      && r.world == w
      && (forall i | 0 <= i < n :: r.values[i] == v)
  {
    if n > 0 {
      InstanceAlwaysSame(v, w, n - 1);
    }
  }

  /**
    A deferred instance runs its producer at most once over any number of
    invocations: on the first one if it is not yet instantiated, never if it is.
    Every invocation returns the cached value.
  */
  lemma {:induction false} DeferredRunsAtMostOnce(c: Container, p: ProducerId, cache: Option<Value>, w: World, n: nat)
    ensures var r := Repeat(DeferredState(c, p, cache), w, n);
      var v := if cache.Some? then cache.value else w.next;
      && (forall i | 0 <= i < n :: r.values[i] == v)
      && (cache.Some? || n == 0 ==> r.world == w && r.state == DeferredState(c, p, cache))
      && (cache.None? && n > 0 ==> r.world == AfterCall(w, p, c) && r.state == DeferredState(c, p, Some(w.next)))
      && ActsAsSingleton(r, w)
    decreases n
  {
    if n > 0 {
      var o := Invoked(DeferredState(c, p, cache), w);
      DeferredRunsAtMostOnce(c, p, o.state.cache, o.world, n - 1);
    }
  }

  /** The state `registerSingleton` stores: a deferred instance for a callable, an instance otherwise. */
  function SingletonState(c: Container, thing: SingletonArg): (s: RegistrationState)
    ensures s.DeferredState? <==> thing.Callable?
    ensures RunsProducer(s) <==> thing.Callable?
    ensures thing.Callable? ==> s.owner == c && s.producer == thing.producer
    ensures thing.Plain? ==> s == InstanceState(thing.value)
  {
    match thing
    case Callable(p) => DeferredState(c, p, None)
    case Plain(v) => InstanceState(v)
  }

  /** Whatever `registerSingleton` was given, the registration acts as a singleton. */
  lemma {:induction false} SingletonAlwaysSame(c: Container, thing: SingletonArg, w: World, n: nat)
    ensures ActsAsSingleton(Repeat(SingletonState(c, thing), w, n), w)
    ensures thing.Plain? ==> Repeat(SingletonState(c, thing), w, n).world == w
  {
    match thing
    case Callable(p) => DeferredRunsAtMostOnce(c, p, None, w, n);
    case Plain(v) => InstanceAlwaysSame(v, w, n);
  }

  /**
    The `lazy()` view of a registration: a factory becomes a fresh,
    uninstantiated deferred instance with the same producer and container;
    an instance or a deferred instance is its own lazy view. The first two
    ensures make the view idempotent.
  */
  function LazyView(s: RegistrationState): (l: RegistrationState)
    ensures !l.FactoryState?
    ensures !s.FactoryState? ==> l == s
    ensures s.FactoryState? ==> l.DeferredState? && l.cache.None?
    ensures l.DeferredState? ==> l.owner == s.owner && l.producer == s.producer
  {
    match s
    case FactoryState(c, p) => DeferredState(c, p, None)
    case _ => s
  }

  /**
    The lazy view always caches, even over a factory: over any number of
    invocations the producer runs at most once and every invocation returns
    the same value.
    Taking the view runs nothing: a factory's view starts uninstantiated.
  */
  lemma {:induction false} LazyViewCaches(s: RegistrationState, w: World, n: nat)
    ensures ActsAsSingleton(Repeat(LazyView(s), w, n), w)
  {
    match s
    case FactoryState(c, p) => DeferredRunsAtMostOnce(c, p, None, w, n);
    case InstanceState(v) => InstanceAlwaysSame(v, w, n);
    case DeferredState(c, p, cache) => DeferredRunsAtMostOnce(c, p, cache, w, n);
  }

  // ---------------------------------------------------------------------------
  // The heap model

  /** The program around the container: runs producers and allocates objects. */
  class Runtime {
    var next: Value
    ghost var calls: seq<Call>

    constructor ()
      ensures next == 0 && calls == []
    {
      next := 0;
      calls := [];
    }

    ghost function Snapshot(): World
      reads this
    {
      World(next, calls)
    }

    /** Runs producer `p` with container `c`; the producer returns a new object. */
    method Run(p: ProducerId, c: Container) returns (v: Value)
      modifies this
      ensures v == old(next)
      ensures Snapshot() == AfterCall(old(Snapshot()), p, c)
    {
      v := next;
      next := next + 1;
      calls := calls + [Call(p, c)];
    }

    /** Allocates an object outside any producer, as `new Thing` in client code. */
    method New() returns (v: Value)
      modifies this
      ensures v == old(next) && next == old(next) + 1
      ensures calls == old(calls)
    {
      v := next;
      next := next + 1;
    }
  }

  /** `FactoryRegistration`: runs its producer on every invocation. */
  class FactoryRegistration {
    const container: Container
    const factory: ProducerId

    constructor (container: Container, factory: ProducerId)
      ensures this.container == container && this.factory == factory
    {
      this.container := container;
      this.factory := factory;
    }

    function State(): RegistrationState
    {
      FactoryState(container, factory)
    }

    method Invoke(rt: Runtime) returns (v: Value)
      requires rt == container.rt
      modifies rt
      ensures v == old(rt.next)
      ensures rt.calls == old(rt.calls) + [Call(factory, container)]
      ensures Outcome(v, State(), rt.Snapshot()) == Invoked(State(), old(rt.Snapshot()))
    {
      v := rt.Run(factory, container);
    }

    /** A new deferred instance over the same producer and container; runs nothing. */
    method Lazy() returns (d: DeferredInstanceRegistration)
      ensures fresh(d)
      ensures d.State() == LazyView(State())
    {
      d := new DeferredInstanceRegistration(container, factory);
    }
  }

  /** `InstanceRegistration`: holds one value. */
  class InstanceRegistration {
    const instance: Value

    constructor (instance: Value)
      ensures this.instance == instance
    {
      this.instance := instance;
    }

    function State(): RegistrationState
    {
      InstanceState(instance)
    }

    /** Returns the held value; runs nothing and changes nothing, in whatever world `w` it is invoked. */
    function Invoke(ghost w: World): (v: Value)
      ensures Invoked(State(), w) == Outcome(v, State(), w)
    {
      instance
    }
  }

  /** `DeferredInstanceRegistration`: runs its producer while `instantiated` is false, then caches the result. */
  class DeferredInstanceRegistration {
    const container: Container
    const factory: ProducerId
    var instantiated: bool
    var instance: Value

    constructor (container: Container, factory: ProducerId)
      ensures State() == DeferredState(container, factory, None)
    {
      this.container := container;
      this.factory := factory;
      instantiated := false;
      instance := 0;  // PHP leaves it null; it is never read before `instantiated`
    }

    function State(): RegistrationState
      reads this
    {
      DeferredState(container, factory, if instantiated then Some(instance) else None)
    }

    /** Check-then-set on `instantiated`: the producer runs only if it has not run yet. */
    method Invoke(rt: Runtime) returns (v: Value)
      requires rt == container.rt
      modifies this, rt
      ensures instantiated && v == instance
      ensures old(instantiated) ==> v == old(instance) && unchanged(this, rt)
      ensures !old(instantiated) ==> v == old(rt.next) && rt.calls == old(rt.calls) + [Call(factory, container)]
      ensures Outcome(v, State(), rt.Snapshot()) == Invoked(old(State()), old(rt.Snapshot()))
    {
      if !instantiated {
        instance := rt.Run(factory, container);
        instantiated := true;
      }
      v := instance;
    }
  }

  /**
    A registration as the container stores it: one of the three classes. PHP
    dispatches `__invoke`, `lazy` and `factory` on the object's class; here the
    dispatch is a match. `lazy()` of an instance or a deferred instance and
    `factory()` of a factory return the object itself.
  */
  datatype Registration =
    | Factory(f: FactoryRegistration)
    | Instance(i: InstanceRegistration)
    | Deferred(d: DeferredInstanceRegistration)
  {
    /** The objects an invocation may change. */
    function Repr(): set<object>
    {
      if Deferred? then {d} else {}
    }

    function State(): RegistrationState
      reads Repr()
    {
      match this
      case Factory(f) => f.State()
      case Instance(i) => i.State()
      case Deferred(d) => d.State()
    }

    /** Whether the registration passes `c` to its producer. */
    predicate OwnedBy(c: Container)
    {
      match this
      case Factory(f) => f.container == c
      case Instance(_) => true
      case Deferred(d) => d.container == c
    }

    /** Whether `rt` is the runtime of the container whose producer this registration runs. */
    predicate RunsIn(rt: Runtime)
    {
      match this
      case Factory(f) => f.container.rt == rt
      case Instance(_) => true
      case Deferred(d) => d.container.rt == rt
    }

    method Invoke(rt: Runtime) returns (v: Value)
      requires RunsIn(rt)
      modifies rt, Repr()
      ensures Outcome(v, State(), rt.Snapshot()) == Invoked(old(State()), old(rt.Snapshot()))
    {
      match this
      case Factory(f) =>
        v := f.Invoke(rt);
      case Instance(i) =>
        v := i.Invoke(rt.Snapshot());
      case Deferred(d) =>
        v := d.Invoke(rt);
    }

    /** `lazy()`: the same object unless it is a factory, which yields a new deferred instance. */
    method Lazy() returns (r: Registration)
      ensures r.State() == LazyView(State())
      ensures !Factory? ==> r == this
      ensures Factory? ==> r.Deferred? && fresh(r.d)
    {
      match this
      case Factory(f) =>
        var d := f.Lazy();
        r := Deferred(d);
      case _ =>
        r := this;
    }

    /** `factory()`: a factory is its own factory view; the other two throw. */
    function AsFactory(): (r: Result<FactoryRegistration>)
      ensures r.Ok? <==> Factory?
      ensures r.Ok? ==> r.value == f
      ensures r.Err? ==> r.error == UnsupportedOperation
    {
      match this
      case Factory(f) => Ok(f)
      case _ => Err(UnsupportedOperation)
    }
  }

  /** `Container`: the registry, over the runtime of the process it lives in. */
  class Container {
    const rt: Runtime
    var registrations: map<string, Registration>

    /**
      Every stored registration passes this container to its producer; no two
      keys share a deferred instance (each registration call allocates its own);
      and every registered instance is an object the runtime had already
      allocated, so no producer run can return it.
    */
    predicate Valid()
      reads this, rt
    {
      && (forall k | k in registrations :: registrations[k].OwnedBy(this))
      && (forall k, k' | k in registrations && k' in registrations && k != k' ::
            registrations[k].Repr() !! registrations[k'].Repr())
      && (forall k | k in registrations && registrations[k].Instance? :: registrations[k].i.instance < rt.next)
    }

    /** The objects that resolving `key` may change. */
    function Footprint(key: string): set<object>
      reads this
    {
      if key in registrations then registrations[key].Repr() else {}
    }

    constructor (rt: Runtime)
      ensures this.rt == rt
      ensures Valid()
      ensures registrations == map[]
      ensures forall k :: !Has(k)
    {
      this.rt := rt;
      registrations := map[];
    }

    /** `register`: stores a new factory registration under `key`, replacing any earlier one. */
    method Register(key: string, factory: ProducerId)
      requires Valid()
      modifies this
      ensures Valid()
      ensures Has(key)
      ensures registrations == old(registrations)[key := registrations[key]]
      ensures registrations[key].Factory? && fresh(registrations[key].f)
      ensures registrations[key].State() == FactoryState(this, factory)
    {
      var r := new FactoryRegistration(this, factory);
      registrations := registrations[key := Registration.Factory(r)];
    }

    /**
      `registerSingleton`: a deferred instance for a callable, an instance for
      anything else. An instance is an object that exists already.
    */
    method RegisterSingleton(key: string, thing: SingletonArg)
      requires Valid()
      requires thing.Plain? ==> thing.value < rt.next
      modifies this
      ensures Valid()
      ensures Has(key)
      ensures registrations == old(registrations)[key := registrations[key]]
      ensures registrations[key].State() == SingletonState(this, thing)
      ensures thing.Callable? ==> registrations[key].Deferred? && fresh(registrations[key].d)
      ensures thing.Plain? ==> registrations[key].Instance? && fresh(registrations[key].i)
    {
      match thing
      case Callable(p) =>
        var r := new DeferredInstanceRegistration(this, p);
        registrations := registrations[key := Deferred(r)];
      case Plain(v) =>
        var r := new InstanceRegistration(v);
        registrations := registrations[key := Instance(r)];
    }

    /** `has`: true exactly when the lookups do not fail with RegistrationNotFound. */
    function Has(key: string): (b: bool)
      reads this
      ensures b <==> Find(key).Ok?
    {
      key in registrations
    }

    /** `find`: the stored registration, or RegistrationNotFound. */
    function Find(key: string): (r: Result<Registration>)
      reads this
      ensures r.Ok? <==> key in registrations
      ensures r.Ok? ==> r.value == registrations[key]
      ensures r.Err? ==> r.error == RegistrationNotFound
    {
      if key !in registrations then Err(RegistrationNotFound) else Ok(registrations[key])
    }

    /** `get`: find, then invoke. */
    method Get(key: string) returns (r: Result<Value>)
      requires Valid()
      modifies rt, Footprint(key)
      ensures Valid() && registrations == old(registrations)
      ensures r.Err? <==> !Has(key)
      ensures r.Err? ==> r.error == RegistrationNotFound && unchanged(rt)
      ensures r.Ok? ==> Invoked(old(registrations[key].State()), old(rt.Snapshot()))
                        == Outcome(r.value, registrations[key].State(), rt.Snapshot())
      ensures forall i | |old(rt.calls)| <= i < |rt.calls| :: rt.calls[i].container == this
      ensures forall k | k in registrations && k != key ::
                registrations[k].State() == old(registrations[k].State())
    {
      var found := Find(key);
      if found.Err? {
        return Err(found.error);
      }
      var v := found.value.Invoke(rt);
      r := Ok(v);
    }

    /** `lazy`: find, then take the registration's lazy view; no producer runs. */
    method Lazy(key: string) returns (r: Result<Registration>)
      requires Valid()
      ensures r.Err? <==> !Has(key)
      ensures r.Err? ==> r.error == RegistrationNotFound
      ensures r.Ok? ==> r.value.State() == LazyView(registrations[key].State())
      ensures r.Ok? ==> r.value.RunsIn(rt)
      ensures r.Ok? && !registrations[key].Factory? ==> r.value == registrations[key]
      ensures r.Ok? && registrations[key].Factory? ==> r.value.Deferred? && fresh(r.value.d)
    {
      var found := Find(key);
      if found.Err? {
        return Err(found.error);
      }
      var l := found.value.Lazy();
      r := Ok(l);
    }

    /** `factory`: find, then take the factory view, which only a factory registration has. */
    function Factory(key: string): (r: Result<FactoryRegistration>)
      reads this, rt
      requires Valid()
      ensures r.Ok? <==> Has(key) && registrations[key].Factory?
      ensures !Has(key) ==> r == Err(RegistrationNotFound)
      ensures Has(key) && !registrations[key].Factory? ==> r == Err(UnsupportedOperation)
      ensures r.Ok? ==> r.value == registrations[key].f && r.value.container.rt == rt
    {
      match Find(key)
      case Err(e) => Err(e)
      case Ok(reg) => reg.AsFactory()
    }

    /** `__get`: property access `$container->key` is `get(key)`. */
    method PropertyAccess(key: string) returns (r: Result<Value>)
      requires Valid()
      modifies rt, Footprint(key)
      ensures Valid() && registrations == old(registrations)
      ensures r.Err? <==> !Has(key)
      ensures r.Err? ==> r.error == RegistrationNotFound && unchanged(rt)
      ensures r.Ok? ==> Invoked(old(registrations[key].State()), old(rt.Snapshot()))
                        == Outcome(r.value, registrations[key].State(), rt.Snapshot())
      ensures forall i | |old(rt.calls)| <= i < |rt.calls| :: rt.calls[i].container == this
      ensures forall k | k in registrations && k != key ::
                registrations[k].State() == old(registrations[k].State())
    {
      r := Get(key);
    }
  }
}
