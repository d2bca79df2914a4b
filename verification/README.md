# SmallRyeConfigBuilder, modelled in Dafny

This project models `SmallRyeConfigBuilder`, the mutable, fluent builder of
SmallRye Config (an implementation of the MicroProfile Config `ConfigBuilder`
SPI). The builder collects:

- explicit config sources and interceptors, in two lists that only grow by appending;
- a converter registry, a map from target type to (converter, priority);
- a class loader and four opt-in flags: default sources, discovered sources,
  discovered converters and discovered interceptors.

Files:

- `config_types.dfy` (module `ConfigTypes`): the values. A converter carries
  what reflection would find on its class. `targetType` is the result of
  `Converters.getConverterType`, where `None` stands for `null`.
  `priorityAnnotation` is the value of its `@Priority` annotation, if any.
  Java `int` is the newtype `int32`.
- `converter_registry.dfy` (module `ConverterRegistry`): `getPriority`, both
  `addConverter` overloads and the registration loop of `withConverters`, as
  functions over the registry map. It also holds the lemmas about the priority
  rule.
- `config_builder.dfy` (module `ConfigBuilder`):
  - the class `SmallRyeConfigBuilder`, whose methods update its fields in place;
  - `BuilderState`, all of those fields as one value;
  - `Step` (one fluent call) and `Run` (a chain of calls that ends at the
    first exception), with lemmas about chains of calls.

Each mutating method is proved to leave the object in
`Step(old(State()), call).state`. `WithConverters` does this with a loop
whose invariant ties the registry after `i` iterations to
`RegisterAll(batch[..i], old(converters))`. Every method keeps the invariant
`Valid()`: each registry entry records its own converter's resolved priority.

The priority rule follows the code at
`SmallRyeConfigBuilder.java:174-182`. The entry for a type is written only
when the type is absent, or when the priority passed in is strictly greater
than the priority stored for it. On a tie, the converter registered first
stays. The entry written records `getPriority(converter)` (the annotation
value, or 100), not the priority passed in. The priority passed to
`withConverter` therefore only takes part in the comparison and is never
stored. So, for an unannotated `A`, `withConverter(T, 200, A)` followed by
`withConverter(T, 50, B)` leaves `(A, 100)`, not `(A, 200)`, and a later
`withConverter(T, 150, B)` replaces `A`. See
`WithConverterKeepsHigherSupplied` and
`WithConverterComparesWithRecordedPriority`.

## Model

| member | source | states |
|---|---|---|
| `ConverterRegistry.GetPriority` | implementation/src/main/java/io/smallrye/config/SmallRyeConfigBuilder.java:184-191 | the result is the converter's `@Priority` value when present, and 100 otherwise |
| `ConverterRegistry.AddConverter` | implementation/src/main/java/io/smallrye/config/SmallRyeConfigBuilder.java:174-182 | the key set becomes the old key set plus `t`, and every other key keeps its entry; `t` is written iff it is absent or the supplied priority is strictly greater than the stored one, and what is written is `(c, GetPriority(c))`; otherwise the map is unchanged |
| `ConverterRegistry.AddResolvedConverter` | implementation/src/main/java/io/smallrye/config/SmallRyeConfigBuilder.java:170-172 | with the priority resolved from the converter, the stored priority is also the compared one: the entry becomes `c` with its resolved priority iff that priority beats the stored one or the type is new; only `t` changes |
| `ConverterRegistry.AddConverterKeepsResolved` | implementation/src/main/java/io/smallrye/config/SmallRyeConfigBuilder.java:176-181 | whatever priority is supplied, a registry whose entries record their converters' resolved priorities still does so afterwards |
| `ConverterRegistry.AddConverterTieKeepsFirst` | implementation/src/main/java/io/smallrye/config/SmallRyeConfigBuilder.java:179-180 | registering with a priority equal to the stored one leaves the map unchanged: the first registration wins a tie |
| `ConverterRegistry.SuppliedPriorityNotRecorded` | implementation/src/main/java/io/smallrye/config/SmallRyeConfigBuilder.java:178-180 | a new type registered with priority 200 by an unannotated converter is stored with priority 100 |
| `ConverterRegistry.RegisterAll` | implementation/src/main/java/io/smallrye/config/SmallRyeConfigBuilder.java:147-155 | the `withConverters` loop as a function: it never removes a key, and an exception it reports names a converter of the batch whose target type is undeterminable |
| `ConverterRegistry.RegisterAllThrowsIff` | implementation/src/main/java/io/smallrye/config/SmallRyeConfigBuilder.java:147-155 | the `withConverters` loop throws iff some converter in the array has no determinable target type |
| `ConverterRegistry.RegisterAllStopsAt` | implementation/src/main/java/io/smallrye/config/SmallRyeConfigBuilder.java:147-155 | when converter `k` is the first without a target type, the loop throws `NotParameterized(cs[k])`; the registry holds exactly what `cs[..k]` registered, and later converters are not processed |
| `ConverterRegistry.RegisterAllKeys` | implementation/src/main/java/io/smallrye/config/SmallRyeConfigBuilder.java:147-155 | after a loop that did not throw, the key set is the old key set plus the target type of every converter: no type is dropped, and there is one entry per distinct type |
| `ConverterRegistry.WinnerUnique` | implementation/src/main/java/io/smallrye/config/SmallRyeConfigBuilder.java:176-181 | at most one converter of a batch is the winner for a type (strictly above every earlier one, at least every later one) |
| `ConverterRegistry.RegisterAllKeepsFirstHighest` | implementation/src/main/java/io/smallrye/config/SmallRyeConfigBuilder.java:146-156 | for every type `t`: if no converter in the batch beats the existing entry, `t`'s entry (or its absence) is unchanged; otherwise it is the first converter of highest priority for `t`, which beats the existing entry, recorded with its priority |
| `ConverterRegistry.RegisterAllKeepsResolved` | implementation/src/main/java/io/smallrye/config/SmallRyeConfigBuilder.java:147-154 | the loop keeps every recorded priority equal to its converter's resolved priority, whether or not it throws |
| `ConfigBuilder.Initial` | implementation/src/main/java/io/smallrye/config/SmallRyeConfigBuilder.java:46-54 | the field initializers: empty source and interceptor lists, an empty registry, all four flags false, the context class loader |
| `ConfigBuilder.Step` | implementation/src/main/java/io/smallrye/config/SmallRyeConfigBuilder.java:59-162 | one fluent call: only `withConverters` throws; the lists only grow by appending the arguments of `withSources`/`withInterceptors`; each flag is on afterwards iff it was on or the call is its setter; the class loader changes only by `forClassLoader`; the registry only by the two converter calls |
| `ConfigBuilder.SetterIsIdempotent` | implementation/src/main/java/io/smallrye/config/SmallRyeConfigBuilder.java:59-74 | each flag setter and `forClassLoader` never throws; a flag setter turns on its own flag and leaves the other three flags as they were; lists and registry are untouched; the class loader changes only by `forClassLoader`, to its argument; calling a setter twice equals calling it once |
| `ConfigBuilder.RunThrowsIff` | implementation/src/main/java/io/smallrye/config/SmallRyeConfigBuilder.java:146-156 | a chain of fluent calls throws iff some `withConverters` batch in it holds a converter without a target type |
| `ConfigBuilder.RunAppendsInCallOrder` | implementation/src/main/java/io/smallrye/config/SmallRyeConfigBuilder.java:129-143 | after a chain that did not throw, the source list is the old list followed by every argument of `withSources`, in call order with duplicates kept; the same holds for `withInterceptors` |
| `ConfigBuilder.RunFlags` | implementation/src/main/java/io/smallrye/config/SmallRyeConfigBuilder.java:59-74 | after a chain that did not throw, each of the four flags is on iff it was on before or the chain contains its setter |
| `ConfigBuilder.RunKeepsResolved` | implementation/src/main/java/io/smallrye/config/SmallRyeConfigBuilder.java:146-182 | after any chain of calls, `withConverter` with a supplied priority included, every registry entry records its converter's resolved priority |
| `ConfigBuilder.WithConverterComparesWithRecordedPriority` | implementation/src/main/java/io/smallrye/config/SmallRyeConfigBuilder.java:158-162 | on a new builder, `withConverter(t, 200, a)` then `withConverter(t, 150, b)` (both unannotated) leaves exactly `t -> (b, 100)` |
| `ConfigBuilder.WithConverterKeepsHigherSupplied` | implementation/src/main/java/io/smallrye/config/SmallRyeConfigBuilder.java:158-162 | on a new builder, `withConverter(t, 200, a)` then `withConverter(t, 50, b)` leaves exactly `t -> (a, 100)`, not `(a, 200)` |
| `ConfigBuilder.WithConvertersRejectsUnparameterized` | implementation/src/main/java/io/smallrye/config/SmallRyeConfigBuilder.java:147-152 | `withConverters([a])` with `a` not parameterized throws naming `a`, and the state is unchanged |
| `ConfigBuilder.SmallRyeConfigBuilder.constructor` | implementation/src/main/java/io/smallrye/config/SmallRyeConfigBuilder.java:46-57 | a new builder has empty source and interceptor lists, an empty registry, all four flags false and the context class loader |
| `ConfigBuilder.SmallRyeConfigBuilder.AddDiscoveredSources` | implementation/src/main/java/io/smallrye/config/SmallRyeConfigBuilder.java:59-63 | sets `addDiscoveredSources` and changes no other field; returns the builder itself |
| `ConfigBuilder.SmallRyeConfigBuilder.AddDiscoveredConverters` | implementation/src/main/java/io/smallrye/config/SmallRyeConfigBuilder.java:65-69 | sets `addDiscoveredConverters` and changes no other field; returns the builder itself |
| `ConfigBuilder.SmallRyeConfigBuilder.AddDiscoveredInterceptors` | implementation/src/main/java/io/smallrye/config/SmallRyeConfigBuilder.java:71-74 | sets `addDiscoveredInterceptors` and changes no other field; returns the builder itself |
| `ConfigBuilder.SmallRyeConfigBuilder.AddDefaultSources` | implementation/src/main/java/io/smallrye/config/SmallRyeConfigBuilder.java:104-108 | sets `addDefaultSources` and changes no other field; returns the builder itself |
| `ConfigBuilder.SmallRyeConfigBuilder.ForClassLoader` | implementation/src/main/java/io/smallrye/config/SmallRyeConfigBuilder.java:123-127 | replaces only `classLoader`; returns the builder itself |
| `ConfigBuilder.SmallRyeConfigBuilder.WithSources` | implementation/src/main/java/io/smallrye/config/SmallRyeConfigBuilder.java:129-138 | the source list becomes the old list followed by the arguments; no other field changes |
| `ConfigBuilder.SmallRyeConfigBuilder.WithInterceptors` | implementation/src/main/java/io/smallrye/config/SmallRyeConfigBuilder.java:140-143 | the interceptor list becomes the old list followed by the arguments; no other field changes |
| `ConfigBuilder.SmallRyeConfigBuilder.WithConverters` | implementation/src/main/java/io/smallrye/config/SmallRyeConfigBuilder.java:145-156 | the loop registers the converters in order by the priority rule and reports the first unparameterized one as the thrown exception; earlier converters stay registered; only the registry changes, and `Valid()` is kept |
| `ConfigBuilder.SmallRyeConfigBuilder.WithConverter` | implementation/src/main/java/io/smallrye/config/SmallRyeConfigBuilder.java:158-162 | the registry becomes `AddConverter(t, priority, c, old registry)`: the supplied priority is compared and the resolved one is recorded; nothing else changes |
| `ConfigBuilder.SmallRyeConfigBuilder.GetSources` | implementation/src/main/java/io/smallrye/config/SmallRyeConfigBuilder.java:193-195 | returns the explicit source list |
| `ConfigBuilder.SmallRyeConfigBuilder.GetConverters` | implementation/src/main/java/io/smallrye/config/SmallRyeConfigBuilder.java:202-204 | returns the registry, in which every entry records its converter's resolved priority |
| `ConfigBuilder.SmallRyeConfigBuilder.GetInterceptors` | implementation/src/main/java/io/smallrye/config/SmallRyeConfigBuilder.java:206-208 | returns the explicit interceptor list |
| `ConfigBuilder.SmallRyeConfigBuilder.IsAddDefaultSources` | implementation/src/main/java/io/smallrye/config/SmallRyeConfigBuilder.java:210-212 | returns the default-sources flag |
| `ConfigBuilder.SmallRyeConfigBuilder.IsAddDiscoveredSources` | implementation/src/main/java/io/smallrye/config/SmallRyeConfigBuilder.java:214-216 | returns the discovered-sources flag |
| `ConfigBuilder.SmallRyeConfigBuilder.IsAddDiscoveredConverters` | implementation/src/main/java/io/smallrye/config/SmallRyeConfigBuilder.java:218-220 | returns the discovered-converters flag |
| `ConfigBuilder.SmallRyeConfigBuilder.IsAddDiscoveredInterceptors` | implementation/src/main/java/io/smallrye/config/SmallRyeConfigBuilder.java:222-224 | returns the discovered-interceptors flag |

## Left out

- `discoverSources`, `discoverConverters`, `discoverInterceptors` (lines 76-102): `ServiceLoader` lookup on the classpath is foreign plugin I/O. The model does not state their order: the builder's own state does not depend on them.
- `getDefaultSources` (lines 110-121): it builds the environment and system-property sources and loads `microprofile-config.properties` resources. That is I/O in classes that are not part of this model.
- `withWrapper` and `getSourceWrappers` (lines 164-168, 197-200): deprecated function composition. The `sourceWrappers` field is not modelled.
- `build()` (lines 226-229): it hands the builder to the `SmallRyeConfig` constructor, which is not part of this model.
- Reflection: `Converters.getConverterType` and `getClass().getAnnotation(Priority.class)` are replaced by the `targetType` and `priorityAnnotation` fields of a `Converter`.
- The thread's context class loader (line 50) is a constructor parameter. Loaders are opaque values.
- Aliasing through the getters: `getSources`, `getConverters` and `getInterceptors` (lines 193-208) return the builder's own `ArrayList`/`HashMap`, so a holder of that reference sees later `withSources`/`withConverter(s)` calls and can change the builder through it. `GetSources`, `GetConverters` and `GetInterceptors` return the value of the field at the time of the call.
- A `null` target type: `withConverter(null, priority, converter)` (lines 158-162, 180) does not throw, and `HashMap` stores the entry under the `null` key. `TypeKey` has no null value, so that entry is not modelled.
- A `null` array, source or converter argument, and the resulting `NullPointerException`s, are not modelled. Object identity is modelled by an `id` field.
- Exceptions are values: `WithConverters` returns the `IllegalStateException` as `thrown`, and `Run` stops at the first one. A caller that catches the exception and keeps using the builder is not modelled beyond the state the method leaves.
- Thread safety: the builder is used from one thread, so no concurrency is modelled.
