# NDesk.Options TypedOptionSet — a Dafny model

`OptionSet<TArguments>` is a strongly typed facade over the untyped NDesk.Options
parser. Callers declare options ahead of time through fluent `Add` overloads.
Each call stores an immutable *option builder* in an append-only list. There are
four kinds of builder: one value untyped, one value typed, key/value untyped and
key/value typed. On every `Parse` and every `WriteOptionDescriptions`, the facade
creates a fresh engine and a fresh arguments record. It then replays every
builder, in list order, into that engine. Each replay adds one engine entry
whose callback forwards the raw or converted value(s), together with that
record, to the stored action.

The model, file by file:

- `options.dfy` (module `Options`) holds the shared values. `Action` has one
  variant per builder class, and its callbacks are pure transformers of the
  record's state `S`. `Builder` is the readonly triple of prototype,
  description and action. `Invoke` is what a fired callback does to the state.
  A C# `null` description or localizer is `None`.
- `engine.dfy` (module `UntypedEngine`) models the external engine only as far
  as the facade uses it. `Arguments<S>` is the arguments record, whose state
  the callbacks replace. `Engine<S, V>` is a registry `regs` of entries. Each
  entry holds a prototype, a description, an action and the bound record.
  `Engine.Parse` fires the entries that the engine's grammar matched, in token
  order, and returns the unmatched tokens. The grammar itself is the parameter
  `Scanner`. `Run` is the specification of a whole scan.
- `builders.dfy` (module `Builders`) models `Build` of the four builder classes.
  `Materialize` is the entry that `Build` adds.
- `option_set.dfy` (module `TypedOptionSets`) models the facade class
  `TypedOptionSet`. `Replay` specifies `BuildOptionSet`, and `ParseResult`
  specifies the record that `Parse` returns.
- `scenarios.dfy` (module `Scenarios`) holds client scenarios shaped like the
  unit tests.

Dafny has no overloading, so the eight `Add` overloads have eight names. The
four with a description are `Add`, `AddTyped`, `AddKeyed` and `AddTypedKeyed`.
Each of the other four adds `WithoutDescription` to its name. The two `Parse`
overloads are `Parse` and `ParseWithExtras`. A typed overload takes the
`TypeTag` of its C# type argument. Typed values belong to one abstract type
`V`, and the engine's conversion is the parameter `convert: Converter<V>`.
`new TArguments()` is the state `blank`, given to the set's constructor.

The closure a builder registers, `value => action(args, value)`, is
represented as the pair (action, target) stored in a `Registration`. So
forwarding holds by construction: the lemmas `SingleEntryForwards`,
`KeyedEntryForwards`, `UntypedIgnoresConverter` and `ReplayFiresStoredAction`
only unfold `Invoke` and `Materialize`. They spell out what each variant hands
to its action, but they are not deep proofs.

## Model

| member | source | states |
|---|---|---|
| `TypedOptionSets.TypedOptionSet.constructor` | NDesk.Options.TypedOptionSet/OptionSet.cs:13-15 | a new set has no builders and no localizer |
| `TypedOptionSets.TypedOptionSet.WithLocalizer` | NDesk.Options.TypedOptionSet/OptionSet.cs:17-19 | the localizer is stored as given, `null` included, and there are no builders |
| `TypedOptionSets.TypedOptionSet.Add` | NDesk.Options.TypedOptionSet/OptionSet.cs:75-89 | appends exactly one untyped one-value builder (prototype, description and action verbatim) after the earlier builders, which stay unchanged; returns the receiver |
| `TypedOptionSets.TypedOptionSet.AddTyped` | NDesk.Options.TypedOptionSet/OptionSet.cs:91-105 | appends exactly one typed one-value builder with its type argument after the unchanged earlier builders; returns the receiver |
| `TypedOptionSets.TypedOptionSet.AddKeyed` | NDesk.Options.TypedOptionSet/OptionSet.cs:107-121 | appends exactly one untyped key/value builder after the unchanged earlier builders; returns the receiver |
| `TypedOptionSets.TypedOptionSet.AddTypedKeyed` | NDesk.Options.TypedOptionSet/OptionSet.cs:123-137 | appends exactly one typed key/value builder with both type arguments after the unchanged earlier builders; returns the receiver |
| `TypedOptionSets.TypedOptionSet.AddWithoutDescription` | NDesk.Options.TypedOptionSet/OptionSet.cs:23-33 | has the same effect and result as `Add` with a `null` description |
| `TypedOptionSets.TypedOptionSet.AddTypedWithoutDescription` | NDesk.Options.TypedOptionSet/OptionSet.cs:35-45 | has the same effect and result as `AddTyped` with a `null` description |
| `TypedOptionSets.TypedOptionSet.AddKeyedWithoutDescription` | NDesk.Options.TypedOptionSet/OptionSet.cs:47-57 | has the same effect and result as `AddKeyed` with a `null` description |
| `TypedOptionSets.TypedOptionSet.AddTypedKeyedWithoutDescription` | NDesk.Options.TypedOptionSet/OptionSet.cs:59-69 | has the same effect and result as `AddTypedKeyed` with a `null` description |
| `TypedOptionSets.TypedOptionSet.CreateOptionSet` | NDesk.Options.TypedOptionSet/OptionSet.cs:173-180 | returns a fresh, empty engine that gets the stored localizer when there is one and is built with its default constructor otherwise |
| `TypedOptionSets.TypedOptionSet.BuildOptionSet` | NDesk.Options.TypedOptionSet/OptionSet.cs:182-190 | the engine gains exactly `Replay(builders, args)` after its earlier entries, and the record is untouched |
| `TypedOptionSets.Replay` | NDesk.Options.TypedOptionSet/OptionSet.cs:187-189 | replay gives one entry per builder, in list order, and entry `i` is builder `i` materialized against the one record |
| `TypedOptionSets.ReplayAppend` | NDesk.Options.TypedOptionSet/OptionSet.cs:87-88 | a builder added with `Add` shows up as one more entry at the end of every later replay |
| `TypedOptionSets.ReplayView` | NDesk.Options.TypedOptionSet/OptionSet.cs:154-157 | after replay, every entry is bound to the one record; the engine sees exactly the builders' prototypes, arities, callbacks and description rows, in order, with none omitted |
| `TypedOptionSets.ReplayFiresStoredAction` | NDesk.Options.TypedOptionSet/OptionSet.cs:157-159 | when the engine fires entry `i` of a replay, it runs builder `i`'s action on the record that `Parse` returns |
| `TypedOptionSets.UnfiredBuilderIrrelevant` | NDesk.Options.TypedOptionSet/OptionSet.cs:157-159 | a builder whose option the scan never matches cannot affect the parsed record: swapping in any action of the same arity gives the same result |
| `TypedOptionSets.TypedOptionSet.ParseWithExtras` | NDesk.Options.TypedOptionSet/OptionSet.cs:149-161 | creates a fresh engine and a fresh record on every call; the engine holds exactly the replay bound to the returned record; extras are what the engine's parse returned; the record's state is `ParseResult` of the builders and this vector alone; builders and localizer are unchanged |
| `TypedOptionSets.TypedOptionSet.Parse` | NDesk.Options.TypedOptionSet/OptionSet.cs:141-147 | returns a fresh record in the state `ParseWithExtras` gives, and the extras are dropped |
| `TypedOptionSets.TypedOptionSet.WriteOptionDescriptions` | NDesk.Options.TypedOptionSet/OptionSet.cs:163-171 | the rows are written by a fresh engine that carries the stored localizer and holds exactly the replay of the builders; the record built for it stays blank, because no parse occurs; the rows written are one per builder, in list order, each with the builder's prototype, description (a missing one included) and value count |
| `Builders.Build` | NDesk.Options.TypedOptionSet/OptionSet.ActionOptionBuilder.cs:25-63 | `Build`, for all four builder classes (the same shape in OptionSet.KeyedActionOptionBuilder.cs:25-34 and :54-63), appends exactly one entry to the engine: the stored prototype, description and action, bound to `args`; it leaves the record untouched, so the action does not run |
| `Builders.SingleEntryForwards` | NDesk.Options.TypedOptionSet/OptionSet.ActionOptionBuilder.cs:25-63 | a one-value builder's entry keeps prototype and description verbatim, takes one value and is bound to `args`; when fired, it calls the action with `args` and the raw text (untyped) or its conversion to the declared type (typed) |
| `Builders.KeyedEntryForwards` | NDesk.Options.TypedOptionSet/OptionSet.KeyedActionOptionBuilder.cs:25-63 | a key/value builder's entry keeps prototype and description verbatim, takes two values and is bound to `args`; when fired, it calls the action with `args`, then the key, then the value, raw (untyped) or each converted to its declared type (typed) |
| `Options.UntypedIgnoresConverter` | NDesk.Options.TypedOptionSet/OptionSet.KeyedActionOptionBuilder.cs:30-32 | untyped callbacks perform no conversion: the result does not depend on the converter, and the raw strings reach the action unchanged |
| `UntypedEngine.Arguments.constructor` | NDesk.Options.TypedOptionSet/OptionSet.cs:155 | every new record starts in the same blank state |
| `UntypedEngine.Engine.Add` | NDesk.Options.TypedOptionSet/OptionSet.KeyedActionOptionBuilder.cs:27-33 | the engine's `Add` overloads called by every `Build`: exactly one new entry, holding the given prototype, description, action and bound record, is appended after the earlier entries, which stay unchanged |
| `UntypedEngine.Engine.constructor` | NDesk.Options.TypedOptionSet/OptionSet.cs:176 | `new OptionSet()`: an engine with no entries, built with its default localizer (`None`) |
| `UntypedEngine.Engine.Localized` | NDesk.Options.TypedOptionSet/OptionSet.cs:178 | `new OptionSet( m_localizer )`: an engine with no entries that carries the given localizer |
| `UntypedEngine.Engine.Fire` | NDesk.Options.TypedOptionSet/OptionSet.ActionOptionBuilder.cs:30-32 | firing an entry applies its stored action to the state of its bound record, and changes nothing else |
| `UntypedEngine.Engine.Parse` | NDesk.Options.TypedOptionSet/OptionSet.cs:159 | the engine returns its grammar's extras; when all entries are bound to one record, the matched callbacks run on that record in token order (`Run`) |
| `UntypedEngine.Engine.WriteOptionDescriptions` | NDesk.Options.TypedOptionSet/OptionSet.cs:170 | assumed behaviour of the external engine, not a proved property: it lists one row per entry, in registration order |
| `UntypedEngine.RunSnoc` | NDesk.Options.TypedOptionSet/OptionSet.cs:159 | a scan with one more match has the effect of the shorter scan followed by that one match |
| `UntypedEngine.RunIgnoresUnfired` | NDesk.Options.TypedOptionSet/OptionSet.ActionOptionBuilder.cs:59-61 | a callback runs only when the engine fires its entry: an action at an index that no match names may be replaced without changing the result |
| `Scenarios.NameAndAge` | NDesk.Options.TypedOptionSet.UnitTests/OptionSetTests.cs:50-148 | an untyped `name=` option and an `int`-typed `age=` option yield `Jim`/34. A second parse of the same set yields a different record that holds only its own vector's value, so nothing leaks between parses. Descriptions list both options in order |
| `Scenarios.KeyedPerson` | NDesk.Options.TypedOptionSet.UnitTests/OptionSetTests.cs:150-239 | untyped and `<string, int>`-typed key/value callbacks both get the key first and the value second, giving `Jim`/34; the description row has no description and two values |

## Left out

- The engine's prototype grammar is not modelled: token scanning, `=`/`:` key/value splitting, bundling and the collection of extras. It is the parameter `Scanner`. The scenarios state, as a precondition, what the grammar does with the tests' vectors.
- The engine's string-to-type conversion and its failures (malformed values, unsupported types) are not modelled. Conversion is the total parameter `Converter<V>`, and all typed values share one abstract type `V`.
- Exceptions thrown by conversions or by user callbacks are not modelled. They propagate from external code, and the facade does not handle them.
- A callback is modelled as a pure function of the record's state. Side effects of callbacks on anything other than their record are not modelled.
- `UntypedEngine.Engine.Parse` skips a match whose index names no entry or whose value count does not fit the entry. The model assumes every match carries exactly as many values as its entry takes, so this branch is not meant to model anything. Raw values are plain strings, so a missing optional value (a C# `null`) cannot reach a callback in the model.
- `UntypedEngine.Engine.Parse` states the record's final state only when all entries are bound to one record, which is always the case for the engines the facade builds. Engines whose entries bind several records are not described.
- The formatting of description text and the `TextWriter` sink are not modelled. `WriteOptionDescriptions` returns the rows it would write, one per entry, before formatting.
- The localizer's behaviour is not modelled. The localizer is an opaque token handed to the engine unchanged.
- `UntypedEngine.Arguments`: the arguments record is a class, so every callback updates the one record that `Parse` returns. `where TArguments : new()` (OptionSet.cs:8) also admits a struct. With a struct, each `Build` closure captures its own copy of `args`. The delegate call passes that copy by value, so each callback gets a fresh temporary copy and mutates only that. No update is kept anywhere, and `Parse` returns the unchanged `new TArguments()`. The model does not capture this value-type case; for it, `ParseResult` is not the returned state.
- `UntypedEngine.Arguments.constructor`: `new TArguments()` runs the record type's own constructor, which may do anything. The model fixes its result to the constant state `blank`. That `ParseResult` depends on the builders and the vector alone rests on this assumption.
- `UntypedEngine.Engine.Add`: the engine's `Add` never fails in the model. The real engine may refuse a prototype it cannot parse, or one that duplicates an earlier name. Because registration is deferred, such a refusal would surface on every later `Parse` and `WriteOptionDescriptions` of that set, not at the facade's `Add`. The model does not capture that failure.
- `null` prototypes and `null` actions are not modelled. Their failures arise in the engine or when the callback is invoked.
- Concurrent use is not modelled. The source supports only single-threaded registration.
- No conversion check happens at registration time. `Build` of all four builder classes (OptionSet.ActionOptionBuilder.cs:25-63, OptionSet.KeyedActionOptionBuilder.cs:25-63) registers the callback without consulting any conversion, so neither does the model. A missing conversion for a declared type is therefore not reported by `Build`.
