/**
 * Values the configuration builder collects: config sources, interceptors,
 * converters with their target type descriptors, class loaders, and the
 * (converter, priority) pair stored in the converter registry.
 *
 * Reflection is replaced by data: what `Converters.getConverterType` would
 * find on a converter's class is the converter's `targetType`, and its
 * `@Priority` annotation (if any) is `priorityAnnotation`.
 */
module ConfigTypes {

  datatype Option<+T> = None | Some(value: T)

  /** A Java `int`. Priorities are only compared, never computed with. */
  newtype int32 = x: int | -0x8000_0000 <= x < 0x8000_0000

  /**
   * A structured descriptor of a (possibly parameterized) Java type, used as
   * the converter registry key: `List<Integer>` and `List<String>` differ.
   */
  datatype TypeKey = TypeKey(rawClass: string, arguments: seq<TypeKey>)

  /** A converter instance; `id` stands for object identity. */
  datatype Converter = Converter(
    id: nat,
    targetType: Option<TypeKey>,
    priorityAnnotation: Option<int32>)

  /** An opaque config source; the builder only collects sources. */
  datatype ConfigSource = ConfigSource(id: nat, name: string)

  /** An opaque config source interceptor. */
  datatype Interceptor = Interceptor(id: nat)

  /** An opaque class loader handle; discovery is not part of this model. */
  datatype ClassLoader = ClassLoader(id: nat)

  /** The registry entry: a converter and the priority recorded for it. */
  datatype ConverterWithPriority = ConverterWithPriority(converter: Converter, priority: int32)

  /**
   * The `IllegalStateException` thrown by `withConverters` for a converter
   * that is not parameterized with a type; it names the converter.
   */
  datatype ConfigError = NotParameterized(converter: Converter)
}
