/**
  The typed facade `OptionSet<TArguments>`: an append-only list of option
  builders, replayed in order into a fresh engine bound to a fresh arguments
  record on every `Parse` and every `WriteOptionDescriptions`.
 */
module TypedOptionSets {
  import opened Options
  import opened UntypedEngine
  import opened Builders

  /** The entries that replaying `bs` into an empty engine leaves there: one per builder, in list order. */
  function Replay<S, V>(bs: seq<Builder<S, V>>, args: Arguments<S>): (regs: seq<Registration<S, V>>)
    ensures |regs| == |bs|
    ensures forall i :: 0 <= i < |bs| ==> regs[i] == Materialize(bs[i], args)
  {
    if bs == [] then [] else Replay(bs[..|bs| - 1], args) + [Materialize(bs[|bs| - 1], args)]
  }

  /** What the engine's grammar sees of the declared options. */
  function DeclaredShapes<S, V>(bs: seq<Builder<S, V>>): seq<Shape> {
    seq(|bs|, i requires 0 <= i < |bs| => Shape(bs[i].prototype, Arity(bs[i].action)))
  }

  /** The declared callbacks, in declaration order. */
  function DeclaredActions<S, V>(bs: seq<Builder<S, V>>): seq<Action<S, V>> {
    seq(|bs|, i requires 0 <= i < |bs| => bs[i].action)
  }

  /**
    The state of the arguments record `Parse` returns: the blank record after
    the callbacks the engine fires for `argv`, in token order. It depends on
    the builders and the argument vector alone, never on an earlier call.
   */
  function ParseResult<S, V>(bs: seq<Builder<S, V>>, blank: S, argv: seq<string>, scanner: Scanner, convert: Converter<V>): S {
    Run(DeclaredActions(bs), scanner(DeclaredShapes(bs), argv).events, blank, convert)
  }

  /** Adding one builder adds one entry, at the end, to every later replay. */
  lemma ReplayAppend<S, V>(bs: seq<Builder<S, V>>, b: Builder<S, V>, args: Arguments<S>)
    ensures Replay(bs + [b], args) == Replay(bs, args) + [Materialize(b, args)]
  {
    assert (bs + [b])[..|bs|] == bs;
  }

  /**
    The engine a replay fills sees exactly the declared options: every entry
    is bound to the one arguments object, and the grammar, the callbacks and
    the description rows are the builders', in order, none omitted.
   */
  lemma ReplayView<S, V>(bs: seq<Builder<S, V>>, args: Arguments<S>)
    ensures AllBoundTo(Replay(bs, args), args)
    ensures TargetsOf(Replay(bs, args)) <= {args}
    ensures ShapesOf(Replay(bs, args)) == DeclaredShapes(bs)
    ensures ActionsOf(Replay(bs, args)) == DeclaredActions(bs)
    ensures |RowsOf(Replay(bs, args))| == |bs|
    ensures forall i :: 0 <= i < |bs| ==>
      RowsOf(Replay(bs, args))[i] == Row(bs[i].prototype, bs[i].description, Arity(bs[i].action))
  {
  }

  /** Firing the `i`-th entry of a replay runs the `i`-th builder's action on the bound record. */
  lemma ReplayFiresStoredAction<S, V>(bs: seq<Builder<S, V>>, args: Arguments<S>, i: nat, raw: seq<string>, s: S, convert: Converter<V>)
    requires i < |bs| && |raw| == Arity(bs[i].action)
    ensures Replay(bs, args)[i].target == args
    ensures Step(ActionsOf(Replay(bs, args)), Event(i, raw), s, convert) == Invoke(bs[i].action, s, raw, convert)
  {
  }

  /**
    A builder whose option the engine never matches cannot affect the parsed
    record: any action of the same arity in its place gives the same result.
   */
  lemma UnfiredBuilderIrrelevant<S, V>(bs: seq<Builder<S, V>>, i: nat, a: Action<S, V>, blank: S, argv: seq<string>, scanner: Scanner, convert: Converter<V>)
    requires i < |bs| && Arity(a) == Arity(bs[i].action)
    requires forall k :: 0 <= k < |scanner(DeclaredShapes(bs), argv).events| ==>
      scanner(DeclaredShapes(bs), argv).events[k].index != i
    ensures ParseResult(bs[i := Builder(bs[i].prototype, bs[i].description, a)], blank, argv, scanner, convert)
         == ParseResult(bs, blank, argv, scanner, convert)
  {
    var bs' := bs[i := Builder(bs[i].prototype, bs[i].description, a)];
    assert DeclaredShapes(bs') == DeclaredShapes(bs);
    assert DeclaredActions(bs') == DeclaredActions(bs)[i := a];
    RunIgnoresUnfired(DeclaredActions(bs), i, a, scanner(DeclaredShapes(bs), argv).events, blank, convert);
  }

  /** `OptionSet<TArguments>`. */
  class TypedOptionSet<S, V> {
    /** `m_optionBuilders`, in the order the `Add` calls were made. */
    var builders: seq<Builder<S, V>>
    /** `m_localizer`; `None` for a C# `null`. */
    const localizer: Option<Localizer>
    /** The state `new TArguments()` gives a record. */
    const blank: S

    /** `OptionSet()`: no builders, no localizer. */
    constructor (blank: S)
      ensures builders == [] && localizer == None && this.blank == blank
    {
      builders := [];
      localizer := None;
      this.blank := blank;
    }

    /** `OptionSet(localizer)`: the localizer is stored as given, `null` included. */
    constructor WithLocalizer(blank: S, localizer: Option<Localizer>)
      ensures builders == [] && this.localizer == localizer && this.blank == blank
    {
      builders := [];
      this.localizer := localizer;
      this.blank := blank;
    }

    /** `Add(prototype, description, Action<TArguments, string>)`. */
    method Add(prototype: string, description: Option<string>, action: (S, string) -> S)
      returns (self: TypedOptionSet<S, V>)
      modifies this
      ensures self == this
      ensures builders == old(builders) + [Builder(prototype, description, Plain(action))]
    {
      builders := builders + [Builder(prototype, description, Plain(action))];
      self := this;
    }

    /** `Add<TValue>(prototype, description, Action<TArguments, TValue>)`. */
    method AddTyped(prototype: string, description: Option<string>, valueType: TypeTag, action: (S, V) -> S)
      returns (self: TypedOptionSet<S, V>)
      modifies this
      ensures self == this
      ensures builders == old(builders) + [Builder(prototype, description, Typed(valueType, action))]
    {
      builders := builders + [Builder(prototype, description, Typed(valueType, action))];
      self := this;
    }

    /** `Add(prototype, description, OptionAction<TArguments, string, string>)`. */
    method AddKeyed(prototype: string, description: Option<string>, action: (S, string, string) -> S)
      returns (self: TypedOptionSet<S, V>)
      modifies this
      ensures self == this
      ensures builders == old(builders) + [Builder(prototype, description, Keyed(action))]
    {
      builders := builders + [Builder(prototype, description, Keyed(action))];
      self := this;
    }

    /** `Add<TKey, TValue>(prototype, description, OptionAction<TArguments, TKey, TValue>)`. */
    method AddTypedKeyed(prototype: string, description: Option<string>, keyType: TypeTag, valueType: TypeTag, action: (S, V, V) -> S)
      returns (self: TypedOptionSet<S, V>)
      modifies this
      ensures self == this
      ensures builders == old(builders) + [Builder(prototype, description, TypedKeyed(keyType, valueType, action))]
    {
      builders := builders + [Builder(prototype, description, TypedKeyed(keyType, valueType, action))];
      self := this;
    }

    /** `Add(prototype, Action<TArguments, string>)`: `Add` with a `null` description. */
    method AddWithoutDescription(prototype: string, action: (S, string) -> S)
      returns (self: TypedOptionSet<S, V>)
      modifies this
      ensures self == this
      ensures builders == old(builders) + [Builder(prototype, None, Plain(action))]
    {
      self := Add(prototype, None, action);
    }

    /** `Add<TValue>(prototype, Action<TArguments, TValue>)`: `AddTyped` with a `null` description. */
    method AddTypedWithoutDescription(prototype: string, valueType: TypeTag, action: (S, V) -> S)
      returns (self: TypedOptionSet<S, V>)
      modifies this
      ensures self == this
      ensures builders == old(builders) + [Builder(prototype, None, Typed(valueType, action))]
    {
      self := AddTyped(prototype, None, valueType, action);
    }

    /** `Add(prototype, OptionAction<TArguments, string, string>)`: `AddKeyed` with a `null` description. */
    method AddKeyedWithoutDescription(prototype: string, action: (S, string, string) -> S)
      returns (self: TypedOptionSet<S, V>)
      modifies this
      ensures self == this
      ensures builders == old(builders) + [Builder(prototype, None, Keyed(action))]
    {
      self := AddKeyed(prototype, None, action);
    }

    /** `Add<TKey, TValue>(prototype, OptionAction<TArguments, TKey, TValue>)`: `AddTypedKeyed` with a `null` description. */
    method AddTypedKeyedWithoutDescription(prototype: string, keyType: TypeTag, valueType: TypeTag, action: (S, V, V) -> S)
      returns (self: TypedOptionSet<S, V>)
      modifies this
      ensures self == this
      ensures builders == old(builders) + [Builder(prototype, None, TypedKeyed(keyType, valueType, action))]
    {
      self := AddTypedKeyed(prototype, None, keyType, valueType, action);
    }

    /** `CreateOptionSet`: a fresh, empty engine, given the localizer only when there is one. */
    method CreateOptionSet() returns (engine: Engine<S, V>)
      ensures fresh(engine) && engine.regs == []
      ensures engine.localizer == localizer
    {
      if localizer.None? {
        engine := new Engine();
      } else {
        engine := new Engine.Localized(localizer.value);
      }
    }

    /** `BuildOptionSet`: every builder's `Build`, once each, in list order. */
    method BuildOptionSet(engine: Engine<S, V>, args: Arguments<S>)
      modifies engine
      ensures engine.regs == old(engine.regs) + Replay(builders, args)
      ensures unchanged(args)
    {
      var k := 0;
      while k < |builders|
        invariant 0 <= k <= |builders|
        invariant engine.regs == old(engine.regs) + Replay(builders[..k], args)
      {
        Build(builders[k], engine, args);
        ReplayAppend(builders[..k], builders[k], args);
        assert builders[..k + 1] == builders[..k] + [builders[k]];
        k := k + 1;
      }
      assert builders[..k] == builders;
    }

    /**
      `Parse(arguments, out extras)`: a new engine and a new record on every
      call; every entry of the engine is bound to the record returned; the
      extras are the engine's, and the record's state is that of `ParseResult`.
      The builders and the localizer are left as they were.
     */
    method ParseWithExtras(argv: seq<string>, scanner: Scanner, convert: Converter<V>)
      returns (args: Arguments<S>, extras: seq<string>, ghost engine: Engine<S, V>)
      ensures fresh(args) && fresh(engine)
      ensures engine.localizer == localizer
      ensures engine.regs == Replay(builders, args)
      ensures extras == scanner(DeclaredShapes(builders), argv).extras
      ensures args.state == ParseResult(builders, blank, argv, scanner, convert)
    {
      var optionSet := CreateOptionSet();
      args := new Arguments(blank);
      BuildOptionSet(optionSet, args);
      ReplayView(builders, args);
      extras := optionSet.Parse(argv, scanner, convert, args);
      engine := optionSet;
    }

    /** `Parse(arguments)`: the record of `ParseWithExtras`, extras discarded. */
    method Parse(argv: seq<string>, scanner: Scanner, convert: Converter<V>) returns (args: Arguments<S>)
      ensures fresh(args)
      ensures args.state == ParseResult(builders, blank, argv, scanner, convert)
    {
      var extras;
      ghost var engine;
      args, extras, engine := ParseWithExtras(argv, scanner, convert);
    }

    /**
      `WriteOptionDescriptions`: the engine built for it lists one row per
      builder, in list order, with the builder's prototype and description
      (a missing description included) and its value count. The engine that
      writes them carries the stored localizer; the record built for it is
      discarded in its blank state, since no parse occurs.
     */
    method WriteOptionDescriptions() returns (rows: seq<Row>, ghost engine: Engine<S, V>, ghost args: Arguments<S>)
      ensures fresh(engine) && fresh(args)
      ensures engine.localizer == localizer
      ensures engine.regs == Replay(builders, args) && args.state == blank
      ensures rows == RowsOf(engine.regs)
      ensures |rows| == |builders|
      ensures forall i :: 0 <= i < |builders| ==>
        rows[i] == Row(builders[i].prototype, builders[i].description, Arity(builders[i].action))
    {
      var optionSet := CreateOptionSet();
      var record := new Arguments(blank);
      BuildOptionSet(optionSet, record);
      ReplayView(builders, record);
      rows := optionSet.WriteOptionDescriptions();
      engine, args := optionSet, record;
    }
  }
}
