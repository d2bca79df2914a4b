/**
 * SmallRyeConfigBuilder: a mutable, fluent builder holding the explicit
 * config sources, the converter registry, the interceptors, the class loader
 * and four opt-in flags. `BuilderState` is the value of all those fields;
 * `Step` says what one fluent call does to it and `Run` what a chain of calls
 * does (a thrown exception ends the chain). The class's methods are proved
 * to perform `Step` in place.
 */
module ConfigBuilder {
  import opened ConfigTypes
  import opened ConverterRegistry

  /** The fields of the builder, as a value. */
  datatype BuilderState = BuilderState(
    sources: seq<ConfigSource>,
    converters: Registry,
    interceptors: seq<Interceptor>,
    classLoader: ClassLoader,
    addDefaultSources: bool,
    addDiscoveredSources: bool,
    addDiscoveredConverters: bool,
    addDiscoveredInterceptors: bool)

  /** A new builder: nothing registered, every flag off, the context class loader. */
  function Initial(contextLoader: ClassLoader): (s: BuilderState)
    ensures s.sources == [] && s.converters == map[] && s.interceptors == []
    ensures !s.addDefaultSources && !s.addDiscoveredSources && !s.addDiscoveredConverters && !s.addDiscoveredInterceptors
    ensures s.classLoader == contextLoader
  {
    BuilderState([], map[], [], contextLoader, false, false, false, false)
  }

  /** The fluent calls that change the builder. */
  datatype Call =
    | AddDiscoveredSources
    | AddDiscoveredConverters
    | AddDiscoveredInterceptors
    | AddDefaultSources
    | ForClassLoader(loader: ClassLoader)
    | WithSources(added: seq<ConfigSource>)
    | WithInterceptors(chain: seq<Interceptor>)
    | WithConverters(batch: seq<Converter>)
    | WithConverter(target: TypeKey, priority: int32, converter: Converter)

  /** The state after a call, and the exception it threw, if any. */
  datatype Outcome = Outcome(state: BuilderState, thrown: Option<ConfigError>)

  /**
   * One fluent call on a builder in state `s`. Only `withConverters` throws;
   * the lists only grow, by appending the arguments of `withSources` and
   * `withInterceptors`; a flag only changes by its own setter, to true; the
   * class loader only by `forClassLoader`; the registry only by the two
   * converter calls.
   */
  function Step(s: BuilderState, call: Call): (o: Outcome)
    ensures o.thrown.Some? ==> call.WithConverters?
    ensures o.state.sources == s.sources + (if call.WithSources? then call.added else [])
    ensures o.state.interceptors == s.interceptors + (if call.WithInterceptors? then call.chain else [])
    ensures o.state.addDefaultSources == (s.addDefaultSources || call.AddDefaultSources?)
    ensures o.state.addDiscoveredSources == (s.addDiscoveredSources || call.AddDiscoveredSources?)
    ensures o.state.addDiscoveredConverters == (s.addDiscoveredConverters || call.AddDiscoveredConverters?)
    ensures o.state.addDiscoveredInterceptors == (s.addDiscoveredInterceptors || call.AddDiscoveredInterceptors?)
    ensures o.state.classLoader == (if call.ForClassLoader? then call.loader else s.classLoader)
    ensures !call.WithConverters? && !call.WithConverter? ==> o.state.converters == s.converters
  {
    match call
    case AddDiscoveredSources => Outcome(s.(addDiscoveredSources := true), None)
    case AddDiscoveredConverters => Outcome(s.(addDiscoveredConverters := true), None)
    case AddDiscoveredInterceptors => Outcome(s.(addDiscoveredInterceptors := true), None)
    case AddDefaultSources => Outcome(s.(addDefaultSources := true), None)
    case ForClassLoader(loader) => Outcome(s.(classLoader := loader), None)
    case WithSources(added) => Outcome(s.(sources := s.sources + added), None)
    case WithInterceptors(chain) => Outcome(s.(interceptors := s.interceptors + chain), None)
    case WithConverters(batch) =>
      var r := RegisterAll(batch, s.converters);
      Outcome(s.(converters := r.registry), r.thrown)
    case WithConverter(t, p, c) => Outcome(s.(converters := AddConverter(t, p, c, s.converters)), None)
  }

  /** A chain of fluent calls; the first exception ends it. */
  function Run(s: BuilderState, calls: seq<Call>): Outcome
    decreases |calls|
  {
    if calls == [] then Outcome(s, None)
    else
      var prev := Run(s, calls[..|calls| - 1]);
      if prev.thrown.Some? then prev else Step(prev.state, calls[|calls| - 1])
  }

  /** A flag setter, or `forClassLoader`: the calls that only assign a field. */
  predicate IsSetter(call: Call)
  {
    call.AddDiscoveredSources? || call.AddDiscoveredConverters? || call.AddDiscoveredInterceptors? ||
    call.AddDefaultSources? || call.ForClassLoader?
  }

  /**
   * A setter sets its own field and nothing else, never throws, and doing it
   * twice is doing it once.
   */
  lemma SetterIsIdempotent(s: BuilderState, call: Call)
    requires IsSetter(call)
    ensures Step(s, call).thrown.None?
    ensures Step(Step(s, call).state, call) == Step(s, call)
    ensures var s' := Step(s, call).state;
      s'.sources == s.sources && s'.converters == s.converters && s'.interceptors == s.interceptors
    ensures call.ForClassLoader? ==> Step(s, call).state == s.(classLoader := call.loader)
    ensures !call.ForClassLoader? ==> Step(s, call).state.classLoader == s.classLoader
    ensures Step(s, call).state.addDefaultSources == (s.addDefaultSources || call.AddDefaultSources?)
    ensures Step(s, call).state.addDiscoveredSources == (s.addDiscoveredSources || call.AddDiscoveredSources?)
    ensures Step(s, call).state.addDiscoveredConverters == (s.addDiscoveredConverters || call.AddDiscoveredConverters?)
    ensures Step(s, call).state.addDiscoveredInterceptors == (s.addDiscoveredInterceptors || call.AddDiscoveredInterceptors?)
  {
  }

  /** The converter batch of every `withConverters` call in `calls` is parameterized. */
  predicate BatchesParameterized(calls: seq<Call>)
  {
    forall i :: 0 <= i < |calls| && calls[i].WithConverters? ==> AllParameterized(calls[i].batch)
  }

  /** A chain throws iff one of its `withConverters` batches holds an unparameterized converter. */
  lemma {:induction false} RunThrowsIff(s: BuilderState, calls: seq<Call>)
    ensures Run(s, calls).thrown.None? <==> BatchesParameterized(calls)
    decreases |calls|
  {
    if calls != [] {
      var init := calls[..|calls| - 1];
      assert forall i :: 0 <= i < |init| ==> init[i] == calls[i];
      RunThrowsIff(s, init);
      var last := calls[|calls| - 1];
      if last.WithConverters? {
        RegisterAllThrowsIff(last.batch, Run(s, init).state.converters);
      }
    }
  }

  /** The sources passed to the `withSources` calls of `calls`, in call order. */
  function SourcesOf(calls: seq<Call>): seq<ConfigSource>
    decreases |calls|
  {
    if calls == [] then []
    else
      var last := calls[|calls| - 1];
      SourcesOf(calls[..|calls| - 1]) + (if last.WithSources? then last.added else [])
  }

  /** The interceptors passed to the `withInterceptors` calls of `calls`, in call order. */
  function InterceptorsOf(calls: seq<Call>): seq<Interceptor>
    decreases |calls|
  {
    if calls == [] then []
    else
      var last := calls[|calls| - 1];
      InterceptorsOf(calls[..|calls| - 1]) + (if last.WithInterceptors? then last.chain else [])
  }

  /** A chain that did not throw is its prefix, which did not throw, and one more call. */
  lemma RunLast(s: BuilderState, calls: seq<Call>)
    requires calls != [] && Run(s, calls).thrown.None?
    ensures Run(s, calls[..|calls| - 1]).thrown.None?
    ensures Run(s, calls) == Step(Run(s, calls[..|calls| - 1]).state, calls[|calls| - 1])
  {
  }

  /**
   * After a chain that did not throw, the source list is the old one followed
   * by every source passed to `withSources`, in call order, duplicates kept,
   * and likewise for interceptors.
   */
  lemma {:induction false} RunAppendsInCallOrder(s: BuilderState, calls: seq<Call>)
    requires Run(s, calls).thrown.None?
    ensures Run(s, calls).state.sources == s.sources + SourcesOf(calls)
    ensures Run(s, calls).state.interceptors == s.interceptors + InterceptorsOf(calls)
    decreases |calls|
  {
    if calls != [] {
      var init := calls[..|calls| - 1];
      RunLast(s, calls);
      RunAppendsInCallOrder(s, init);
    }
  }

  /** A flag is on after a chain that did not throw iff it was on or some call set it. */
  lemma {:induction false} RunFlags(s: BuilderState, calls: seq<Call>)
    requires Run(s, calls).thrown.None?
    ensures Run(s, calls).state.addDefaultSources <==>
      s.addDefaultSources || Call.AddDefaultSources in calls
    ensures Run(s, calls).state.addDiscoveredSources <==>
      s.addDiscoveredSources || Call.AddDiscoveredSources in calls
    ensures Run(s, calls).state.addDiscoveredConverters <==>
      s.addDiscoveredConverters || Call.AddDiscoveredConverters in calls
    ensures Run(s, calls).state.addDiscoveredInterceptors <==>
      s.addDiscoveredInterceptors || Call.AddDiscoveredInterceptors in calls
    decreases |calls|
  {
    if calls != [] {
      var init := calls[..|calls| - 1];
      assert calls == init + [calls[|calls| - 1]];
      RunLast(s, calls);
      RunFlags(s, init);
    }
  }

  /** Every registry entry reached by any chain records its converter's resolved priority. */
  lemma {:induction false} RunKeepsResolved(s: BuilderState, calls: seq<Call>)
    requires Resolved(s.converters)
    ensures Resolved(Run(s, calls).state.converters)
    decreases |calls|
  {
    if calls != [] {
      var init := calls[..|calls| - 1];
      RunKeepsResolved(s, init);
      var prev := Run(s, init);
      if prev.thrown.None? {
        match calls[|calls| - 1]
        case WithConverters(batch) => RegisterAllKeepsResolved(batch, prev.state.converters);
        case WithConverter(t, p, c) => AddConverterKeepsResolved(t, p, c, prev.state.converters);
        case _ =>
      }
    }
  }

  /**
   * `withConverter(type, 200, a)` then `withConverter(type, 150, b)` on a new
   * builder, neither converter annotated: `b` ends up registered, with the
   * default priority 100 recorded, since 150 is compared with the 100 that
   * was recorded for `a`.
   */
  lemma WithConverterComparesWithRecordedPriority(l: ClassLoader, t: TypeKey, a: Converter, b: Converter)
    requires a.priorityAnnotation.None? && b.priorityAnnotation.None?
    ensures var o := Run(Initial(l), [WithConverter(t, 200, a), WithConverter(t, 150, b)]);
      o.thrown.None? && o.state.converters == map[t := ConverterWithPriority(b, 100)]
  {
    var calls := [WithConverter(t, 200, a), WithConverter(t, 150, b)];
    assert calls[..1] == [calls[0]] && calls[..1][..0] == [];
    var s1 := Step(Initial(l), calls[0]).state;
    assert s1.converters == map[t := ConverterWithPriority(a, 100)];
    assert Run(Initial(l), calls[..1]) == Outcome(s1, None);
  }

  /**
   * `withConverter(type, 200, a)` then `withConverter(type, 50, b)`: `a`
   * stays, but with the priority 100 recorded, not 200.
   */
  lemma WithConverterKeepsHigherSupplied(l: ClassLoader, t: TypeKey, a: Converter, b: Converter)
    requires a.priorityAnnotation.None?
    ensures var o := Run(Initial(l), [WithConverter(t, 200, a), WithConverter(t, 50, b)]);
      o.thrown.None? && o.state.converters == map[t := ConverterWithPriority(a, 100)]
  {
    var calls := [WithConverter(t, 200, a), WithConverter(t, 50, b)];
    assert calls[..1] == [calls[0]] && calls[..1][..0] == [];
    var s1 := Step(Initial(l), calls[0]).state;
    assert s1.converters == map[t := ConverterWithPriority(a, 100)];
    assert Run(Initial(l), calls[..1]) == Outcome(s1, None);
  }

  /**
   * `withConverters([a])` with `a` not parameterized throws naming `a` and
   * registers nothing.
   */
  lemma WithConvertersRejectsUnparameterized(s: BuilderState, a: Converter)
    requires a.targetType.None?
    ensures Step(s, WithConverters([a])) == Outcome(s, Some(NotParameterized(a)))
  {
    assert [a][..0] == [];
    assert RegisterAll([a], s.converters) == Registered(s.converters, Some(NotParameterized(a)));
  }

  /** The builder object. Fluent methods return the builder itself. */
  class SmallRyeConfigBuilder {
    var sources: seq<ConfigSource>
    var converters: Registry
    var interceptors: seq<Interceptor>
    var classLoader: ClassLoader
    var addDefaultSources: bool
    var addDiscoveredSources: bool
    var addDiscoveredConverters: bool
    var addDiscoveredInterceptors: bool

    /** All fields, as a value. */
    ghost function State(): BuilderState
      reads this
    {
      BuilderState(sources, converters, interceptors, classLoader,
        addDefaultSources, addDiscoveredSources, addDiscoveredConverters, addDiscoveredInterceptors)
    }

    /** The registry records, for every entry, its converter's resolved priority. */
    ghost predicate Valid()
      reads this
    {
      Resolved(converters)
    }

    /** `new SmallRyeConfigBuilder()`, on a thread whose context class loader is `contextLoader`. */
    constructor (contextLoader: ClassLoader)
      ensures Valid() && State() == Initial(contextLoader)
      ensures sources == [] && converters == map[] && interceptors == []
      ensures !addDefaultSources && !addDiscoveredSources && !addDiscoveredConverters && !addDiscoveredInterceptors
      ensures classLoader == contextLoader
    {
      sources := [];
      converters := map[];
      interceptors := [];
      classLoader := contextLoader;
      addDefaultSources := false;
      addDiscoveredSources := false;
      addDiscoveredConverters := false;
      addDiscoveredInterceptors := false;
    }

    method AddDiscoveredSources() returns (self: SmallRyeConfigBuilder)
      requires Valid()
      modifies this
      ensures Valid() && self == this
      ensures addDiscoveredSources
      ensures State() == Step(old(State()), Call.AddDiscoveredSources).state
    {
      addDiscoveredSources := true;
      self := this;
    }

    method AddDiscoveredConverters() returns (self: SmallRyeConfigBuilder)
      requires Valid()
      modifies this
      ensures Valid() && self == this
      ensures addDiscoveredConverters
      ensures State() == Step(old(State()), Call.AddDiscoveredConverters).state
    {
      addDiscoveredConverters := true;
      self := this;
    }

    method AddDiscoveredInterceptors() returns (self: SmallRyeConfigBuilder)
      requires Valid()
      modifies this
      ensures Valid() && self == this
      ensures addDiscoveredInterceptors
      ensures State() == Step(old(State()), Call.AddDiscoveredInterceptors).state
    {
      addDiscoveredInterceptors := true;
      self := this;
    }

    method AddDefaultSources() returns (self: SmallRyeConfigBuilder)
      requires Valid()
      modifies this
      ensures Valid() && self == this
      ensures addDefaultSources
      ensures State() == Step(old(State()), Call.AddDefaultSources).state
    {
      addDefaultSources := true;
      self := this;
    }

    method ForClassLoader(loader: ClassLoader) returns (self: SmallRyeConfigBuilder)
      requires Valid()
      modifies this
      ensures Valid() && self == this
      ensures classLoader == loader
      ensures State() == Step(old(State()), Call.ForClassLoader(loader)).state
    {
      classLoader := loader;
      self := this;
    }

    /** Both `withSources` overloads (varargs and collection). */
    method WithSources(added: seq<ConfigSource>) returns (self: SmallRyeConfigBuilder)
      requires Valid()
      modifies this
      ensures Valid() && self == this
      ensures sources == old(sources) + added
      ensures State() == Step(old(State()), Call.WithSources(added)).state
    {
      sources := sources + added;
      self := this;
    }

    method WithInterceptors(chain: seq<Interceptor>) returns (self: SmallRyeConfigBuilder)
      requires Valid()
      modifies this
      ensures Valid() && self == this
      ensures interceptors == old(interceptors) + chain
      ensures State() == Step(old(State()), Call.WithInterceptors(chain)).state
    {
      interceptors := interceptors + chain;
      self := this;
    }

    /**
     * Registers each converter of `batch` in order under its target type with
     * its resolved priority; the first one whose target type cannot be
     * determined is reported in `thrown` (the `IllegalStateException`), with
     * the earlier ones left registered and the later ones not processed.
     */
    method WithConverters(batch: seq<Converter>) returns (self: SmallRyeConfigBuilder, thrown: Option<ConfigError>)
      requires Valid()
      modifies this
      ensures Valid() && self == this
      ensures State() == Step(old(State()), Call.WithConverters(batch)).state
      ensures thrown == Step(old(State()), Call.WithConverters(batch)).thrown
    {
      self := this;
      thrown := None;
      var i := 0;
      while i < |batch|
        invariant 0 <= i <= |batch|
        invariant RegisterAll(batch[..i], old(converters)) == Registered(converters, None)
        invariant State() == old(State()).(converters := converters)
        invariant Valid()
      {
        var c := batch[i];
        assert batch[..i + 1][..i] == batch[..i];
        match c.targetType {
          case None =>
            RegisterAllThrowsIff(batch[..i], old(converters));
            RegisterAllStopsAt(batch, i, old(converters));
            thrown := Some(NotParameterized(c));
            return;
          case Some(t) =>
            AddConverterKeepsResolved(t, GetPriority(c), c, converters);
            converters := AddConverter(t, GetPriority(c), c, converters);
        }
        i := i + 1;
      }
      assert batch[..i] == batch;
    }

    /**
     * `withConverter(type, priority, converter)`: the supplied priority
     * decides whether the entry is written; the entry records the
     * converter's resolved priority.
     */
    method WithConverter(t: TypeKey, priority: int32, c: Converter) returns (self: SmallRyeConfigBuilder)
      requires Valid()
      modifies this
      ensures Valid() && self == this
      ensures converters == AddConverter(t, priority, c, old(converters))
      ensures State() == Step(old(State()), Call.WithConverter(t, priority, c)).state
    {
      AddConverterKeepsResolved(t, priority, c, converters);
      converters := AddConverter(t, priority, c, converters);
      self := this;
    }

    method GetSources() returns (r: seq<ConfigSource>)
      ensures r == sources
    {
      r := sources;
    }

    /** The registry as handed on: every entry carries its converter's resolved priority. */
    method GetConverters() returns (r: Registry)
      requires Valid()
      ensures r == converters
      ensures forall t :: t in r ==> r[t].priority == GetPriority(r[t].converter)
    {
      r := converters;
    }

    method GetInterceptors() returns (r: seq<Interceptor>)
      ensures r == interceptors
    {
      r := interceptors;
    }

    method IsAddDefaultSources() returns (r: bool)
      ensures r == addDefaultSources
    {
      r := addDefaultSources;
    }

    method IsAddDiscoveredSources() returns (r: bool)
      ensures r == addDiscoveredSources
    {
      r := addDiscoveredSources;
    }

    method IsAddDiscoveredConverters() returns (r: bool)
      ensures r == addDiscoveredConverters
    {
      r := addDiscoveredConverters;
    }

    method IsAddDiscoveredInterceptors() returns (r: bool)
      ensures r == addDiscoveredInterceptors
    {
      r := addDiscoveredInterceptors;
    }
  }
}
