/**
  Client programs that use the container the way its unit tests do. Each one
  starts, as the tests' set-up does, from a new container (over a new
  runtime), and its postcondition is the test's assertion, proved from the
  container's contracts alone.
*/
module HotwireScenarios {
  import opened Hotwire

  /** Producer ids used below; any distinct ids would do. */
  const MakeThing: ProducerId := 7
  const OtherThing: ProducerId := 8

  /** `has` is false for a key that was never registered. */
  method HasIsFalseWithoutRegistration() returns (b: bool)
    ensures !b
  {
    var rt := new Runtime();
    var c := new Container(rt);
    b := c.Has("quux");
  }

  /** `has` is true once a key is registered. */
  method HasIsTrueWithRegistration() returns (b: bool)
    ensures b
  {
    var rt := new Runtime();
    var c := new Container(rt);
    var thing := rt.New();
    c.RegisterSingleton("moose", Plain(thing));
    b := c.Has("moose");
  }

  /** `get` and property access return the identical object. */
  method GetAndPropertyAccessAgree() returns (t1: Result<Value>, t2: Result<Value>)
    ensures t1.Ok? && t1 == t2
  {
    var rt := new Runtime();
    var c := new Container(rt);
    var thing := rt.New();
    c.RegisterSingleton("xyzzy", Plain(thing));
    t1 := c.Get("xyzzy");
    t2 := c.PropertyAccess("xyzzy");
  }

  /** A factory's producer is given the container it was registered with. */
  method FactoryReceivesContainer() returns (c: Container, rt: Runtime)
    ensures rt.calls == [Call(MakeThing, c)]
  {
    rt := new Runtime();
    c := new Container(rt);
    c.Register("i", MakeThing);
    var _ := c.PropertyAccess("i");
  }

  /** Two resolutions of a factory registration give two different objects. */
  method FactoryCreatesNewInstances() returns (t1: Result<Value>, t2: Result<Value>)
    ensures t1.Ok? && t2.Ok? && t1.value != t2.value
  {
    var rt := new Runtime();
    var c := new Container(rt);
    c.Register("i", MakeThing);
    t1 := c.PropertyAccess("i");
    t2 := c.PropertyAccess("i");
  }

  /** A singleton's producer is given the container it was registered with. */
  method SingletonFactoryReceivesContainer() returns (c: Container, rt: Runtime)
    ensures rt.calls == [Call(MakeThing, c)]
  {
    rt := new Runtime();
    c := new Container(rt);
    c.RegisterSingleton("i", Callable(MakeThing));
    var _ := c.PropertyAccess("i");
  }

  /** Two resolutions of a singleton producer give the identical object. */
  method SingletonFactoryReturnsSameInstance() returns (t1: Result<Value>, t2: Result<Value>)
    ensures t1.Ok? && t1 == t2
  {
    var rt := new Runtime();
    var c := new Container(rt);
    c.RegisterSingleton("s", Callable(MakeThing));
    t1 := c.PropertyAccess("s");
    t2 := c.PropertyAccess("s");
  }

  /** Two resolutions of a singleton instance give that very instance. */
  method SingletonInstanceReturnsSameInstance() returns (thing: Value, t1: Result<Value>, t2: Result<Value>)
    ensures t1 == Ok(thing) && t2 == Ok(thing)
  {
    var rt := new Runtime();
    var c := new Container(rt);
    thing := rt.New();
    c.RegisterSingleton("s", Plain(thing));
    t1 := c.PropertyAccess("s");
    t2 := c.PropertyAccess("s");
  }

  /** A producer's result is never an object that already existed, such as a registered instance. */
  method FactoryValueIsNotAnInstance() returns (s: Result<Value>, f: Result<Value>)
    ensures s.Ok? && f.Ok? && s.value != f.value
  {
    var rt := new Runtime();
    var c := new Container(rt);
    var thing := rt.New();
    c.RegisterSingleton("s", Plain(thing));
    c.Register("f", MakeThing);
    s := c.Get("s");
    f := c.Get("f");
  }

  /** `lazy` runs nothing; invoking its result runs the producer once. */
  method LazyDoesNotInstantiateUntilInvoked() returns (ghost callsBefore: seq<Call>, c: Container, rt: Runtime)
    ensures callsBefore == [] && rt.calls == [Call(MakeThing, c)]
  {
    rt := new Runtime();
    c := new Container(rt);
    c.Register("lazy", MakeThing);
    var l := c.Lazy("lazy");
    callsBefore := rt.calls;
    var _ := l.value.Invoke(rt);
  }

  /** Invoking the result of `lazy` returns the object the producer made. */
  method LazyFactoryReturnsCorrectInstance() returns (c: Container, rt: Runtime, t: Value)
    ensures rt.calls == [Call(MakeThing, c)] && t == rt.next - 1
  {
    rt := new Runtime();
    c := new Container(rt);
    c.Register("lazy", MakeThing);
    var l := c.Lazy("lazy");
    t := l.value.Invoke(rt);
  }

  /** Invoking the result of `lazy` twice gives the identical object, even over a factory. */
  method LazyFactoryReturnsSameInstance() returns (t1: Value, t2: Value)
    ensures t1 == t2
  {
    var rt := new Runtime();
    var c := new Container(rt);
    c.Register("lazy", MakeThing);
    var l := c.Lazy("lazy");
    t1 := l.value.Invoke(rt);
    t2 := l.value.Invoke(rt);
  }

  /** `lazy` of a singleton shares its cache: get, lazy()() and get again run the producer once. */
  method SingletonSharedWithLazyView() returns (t1: Value, t2: Value, t3: Value, c: Container, rt: Runtime)
    ensures t1 == t2 == t3 && rt.calls == [Call(MakeThing, c)]
  {
    rt := new Runtime();
    c := new Container(rt);
    c.RegisterSingleton("s", Callable(MakeThing));
    var l := c.Lazy("s");
    var r1 := c.Get("s");
    t2 := l.value.Invoke(rt);
    var r3 := c.Get("s");
    t1, t3 := r1.value, r3.value;
  }

  /** Invoking the factory view returns the object the producer made. */
  method FactoryCreatesInstances() returns (c: Container, rt: Runtime, t: Value)
    ensures rt.calls == [Call(MakeThing, c)] && t == rt.next - 1
  {
    rt := new Runtime();
    c := new Container(rt);
    c.Register("factory", MakeThing);
    var f := c.Factory("factory");
    t := f.value.Invoke(rt);
  }

  /** The factory view of a factory registration gives different objects on every call. */
  method FactoryViewCreatesDifferentInstances() returns (t1: Value, t2: Value)
    ensures t1 != t2
  {
    var rt := new Runtime();
    var c := new Container(rt);
    c.Register("factory", MakeThing);
    var f := c.Factory("factory");
    t1 := f.value.Invoke(rt);
    t2 := f.value.Invoke(rt);
  }

  /** The factory view of either kind of singleton fails with UnsupportedOperation. */
  method FactoryFailsForSingletons() returns (f1: Result<FactoryRegistration>, f2: Result<FactoryRegistration>)
    ensures f1 == Err(UnsupportedOperation) && f2 == Err(UnsupportedOperation)
  {
    var rt := new Runtime();
    var c := new Container(rt);
    var thing := rt.New();
    c.RegisterSingleton("f1", Plain(thing));
    c.RegisterSingleton("f2", Callable(MakeThing));
    f1 := c.Factory("f1");
    f2 := c.Factory("f2");
  }

  /** Every lookup of an unregistered key fails with RegistrationNotFound. */
  method UnregisteredKeyNotFound() returns (g: Result<Value>, l: Result<Registration>, f: Result<FactoryRegistration>)
    ensures g == Err(RegistrationNotFound) && l == Err(RegistrationNotFound) && f == Err(RegistrationNotFound)
  {
    var rt := new Runtime();
    var c := new Container(rt);
    c.Register("other", MakeThing);
    assert !c.Has("missing");
    g := c.Get("missing");
    l := c.Lazy("missing");
    f := c.Factory("missing");
  }

  /** Registering a key again replaces its registration and leaves other keys alone. */
  method LastRegistrationWins() returns (f: Result<FactoryRegistration>, before: Result<FactoryRegistration>, after: Result<FactoryRegistration>)
    ensures f == Err(UnsupportedOperation)
    ensures before.Ok? && after == before && after.value.factory == OtherThing
  {
    var rt := new Runtime();
    var c := new Container(rt);
    c.Register("a", MakeThing);
    c.Register("b", OtherThing);
    before := c.Factory("b");
    var thing := rt.New();
    c.RegisterSingleton("a", Plain(thing));
    f := c.Factory("a");
    after := c.Factory("b");
  }
}
