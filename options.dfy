/**
  Values shared by the typed facade and the untyped engine: descriptions that
  may be absent, the names of C# type arguments, localizer tokens, the four
  shapes of option callback and the deferred option builder that carries one.
 */
module Options {

  /** A value that may be absent; `None` stands for a C# `null` reference. */
  datatype Option<T> = None | Some(value: T)

  /** Names the C# type argument of a typed `Add` (`int` in `Add<int>`). */
  datatype TypeTag = TypeTag(name: string)

  /** A description-text localizer. It is handed to the engine unchanged and
      never applied by the facade, so only its identity is kept. */
  datatype Localizer = Localizer(name: string)

  /** The engine's string-to-value conversion for a declared type argument. */
  type Converter<V> = (TypeTag, string) -> V

  /**
    The callback an option carries, one variant per builder class.
    `S` is the state of the arguments record the callback updates and `V` the
    type of the values the engine's conversion produces. A C# callback mutates
    the arguments object it is given; here it returns that object's new state.
   */
  datatype Action<!S, -V> =
    | Plain(onValue: (S, string) -> S)                                   // Action<TArguments, string>
    | Typed(valueType: TypeTag, onTypedValue: (S, V) -> S)               // Action<TArguments, TValue>
    | Keyed(onPair: (S, string, string) -> S)                            // OptionAction<TArguments, string, string>
    | TypedKeyed(keyType: TypeTag, valueType: TypeTag, onTypedPair: (S, V, V) -> S)  // OptionAction<TArguments, TKey, TValue>

  /** How many values the engine collects for the option: one, or a key and a value. */
  function Arity<S, V>(a: Action<S, V>): nat {
    if a.Keyed? || a.TypedKeyed? then 2 else 1
  }

  /** True for the variants registered through the engine's generic `Add<T>` overloads. */
  predicate IsTyped<S, V>(a: Action<S, V>) {
    a.Typed? || a.TypedKeyed?
  }

  /**
    The new state of the arguments record when the engine hands the callback
    the raw text it collected: untyped callbacks get the text itself, typed
    ones the engine's conversion of it; a key precedes its value.
   */
  function Invoke<S, V>(a: Action<S, V>, s: S, raw: seq<string>, convert: Converter<V>): S
    requires |raw| == Arity(a)
  {
    match a
    case Plain(f) => f(s, raw[0])
    case Typed(t, f) => f(s, convert(t, raw[0]))
    case Keyed(f) => f(s, raw[0], raw[1])
    case TypedKeyed(kt, vt, f) => f(s, convert(kt, raw[0]), convert(vt, raw[1]))
  }

  /**
    A deferred registration: the prototype, the optional description and the
    callback, fixed when the builder is made (the C# fields are readonly).
    It holds no engine and no arguments object.
   */
  datatype Builder<!S, -V> = Builder(prototype: string, description: Option<string>, action: Action<S, V>)

  /** An untyped callback performs no conversion: the converter is never consulted. */
  lemma UntypedIgnoresConverter<S, V>(a: Action<S, V>, s: S, raw: seq<string>, c1: Converter<V>, c2: Converter<V>)
    requires |raw| == Arity(a) && !IsTyped(a)
    ensures Invoke(a, s, raw, c1) == Invoke(a, s, raw, c2)
    ensures a.Plain? ==> Invoke(a, s, raw, c1) == a.onValue(s, raw[0])
    ensures a.Keyed? ==> Invoke(a, s, raw, c1) == a.onPair(s, raw[0], raw[1])
  {
  }
}
