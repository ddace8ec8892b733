/**
  The option builders of the typed facade (`ActionOptionBuilder`,
  `ActionOptionBuilder<TValue>`, `KeyedActionOptionBuilder` and
  `KeyedActionOptionBuilder<TKey, TValue>`): how a stored builder turns into
  one entry of a live engine, bound to a live arguments object.
 */
module Builders {
  import opened Options
  import opened UntypedEngine

  /** The entry `Build` adds: the builder's own prototype, description and action, closed over `args`. */
  function Materialize<S, V>(b: Builder<S, V>, args: Arguments<S>): Registration<S, V> {
    Registration(b.prototype, b.description, b.action, args)
  }

  /**
    `Build(optionSet, args)`: registers exactly one entry in the engine and
    changes nothing else; in particular the callback is not run, so the
    arguments object keeps its state.
   */
  method Build<S, V>(b: Builder<S, V>, engine: Engine<S, V>, args: Arguments<S>)
    modifies engine
    ensures engine.regs == old(engine.regs) + [Materialize(b, args)]
    ensures unchanged(args)
  {
    engine.Add(b.prototype, b.description, b.action, args);
  }

  /**
    A one-value builder's entry carries its prototype and description
    verbatim, takes one value, and when fired hands that value (untyped) or
    its conversion to the declared type (typed) to the stored action together
    with the bound arguments object.
   */
  lemma SingleEntryForwards<S, V>(b: Builder<S, V>, args: Arguments<S>, s: S, value: string, convert: Converter<V>)
    requires b.action.Plain? || b.action.Typed?
    ensures Materialize(b, args).prototype == b.prototype
    ensures Materialize(b, args).description == b.description
    ensures Materialize(b, args).target == args
    ensures Arity(Materialize(b, args).action) == 1
    ensures b.action.Plain? ==> Invoke(Materialize(b, args).action, s, [value], convert) == b.action.onValue(s, value)
    ensures b.action.Typed? ==>
      Invoke(Materialize(b, args).action, s, [value], convert) == b.action.onTypedValue(s, convert(b.action.valueType, value))
  {
  }

  /**
    A key/value builder's entry carries its prototype and description
    verbatim, takes two values, and when fired hands the key as the second
    argument and the value as the third to the stored action, raw (untyped)
    or each converted to its declared type (typed).
   */
  lemma KeyedEntryForwards<S, V>(b: Builder<S, V>, args: Arguments<S>, s: S, key: string, value: string, convert: Converter<V>)
    requires b.action.Keyed? || b.action.TypedKeyed?
    ensures Materialize(b, args).prototype == b.prototype
    ensures Materialize(b, args).description == b.description
    ensures Materialize(b, args).target == args
    ensures Arity(Materialize(b, args).action) == 2
    ensures b.action.Keyed? ==> Invoke(Materialize(b, args).action, s, [key, value], convert) == b.action.onPair(s, key, value)
    ensures b.action.TypedKeyed? ==>
      Invoke(Materialize(b, args).action, s, [key, value], convert)
        == b.action.onTypedPair(s, convert(b.action.keyType, key), convert(b.action.valueType, value))
  {
  }
}
