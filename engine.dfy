/**
  The untyped NDesk.Options engine, reduced to the interface the typed facade
  uses: a registry of (prototype, description, callback) entries that can be
  added to, fired, listed and run over an argument vector. Its prototype
  grammar and token scanning are a parameter (`Scanner`); its conversion of
  text to typed values is a parameter (`Converter`).
 */
module UntypedEngine {
  import opened Options

  /** The arguments record (`TArguments`); callbacks replace its state. */
  class Arguments<S> {
    var state: S

    /** `new TArguments()`: every record starts from the same blank state. */
    constructor (blank: S)
      ensures state == blank
    {
      state := blank;
    }
  }

  /** One engine entry: the closure `value => action(args, value)` is the pair (action, target). */
  datatype Registration<!S, -V> =
    Registration(prototype: string, description: Option<string>, action: Action<S, V>, target: Arguments<S>)

  /** What the engine's grammar sees of an entry. */
  datatype Shape = Shape(prototype: string, arity: nat)

  /** The engine matched registration `index` and collected the raw values `raw`. */
  datatype Event = Event(index: nat, raw: seq<string>)

  /** The outcome of scanning an argument vector: matches in token order, then unmatched tokens. */
  datatype Scan = Scan(events: seq<Event>, extras: seq<string>)

  /** One line of the description table, before the engine formats it. */
  datatype Row = Row(prototype: string, description: Option<string>, arity: nat)

  /** The engine's grammar: which entries an argument vector fires, and what is left over. */
  type Scanner = (seq<Shape>, seq<string>) -> Scan

  function ShapesOf<S, V>(regs: seq<Registration<S, V>>): seq<Shape> {
    seq(|regs|, i requires 0 <= i < |regs| => Shape(regs[i].prototype, Arity(regs[i].action)))
  }

  function ActionsOf<S, V>(regs: seq<Registration<S, V>>): seq<Action<S, V>> {
    seq(|regs|, i requires 0 <= i < |regs| => regs[i].action)
  }

  function RowsOf<S, V>(regs: seq<Registration<S, V>>): seq<Row> {
    seq(|regs|, i requires 0 <= i < |regs| => Row(regs[i].prototype, regs[i].description, Arity(regs[i].action)))
  }

  function TargetsOf<S, V>(regs: seq<Registration<S, V>>): set<Arguments<S>> {
    set i | 0 <= i < |regs| :: regs[i].target
  }

  /** Every entry's callback closes over the same arguments object. */
  ghost predicate AllBoundTo<S, V>(regs: seq<Registration<S, V>>, target: Arguments<S>) {
    forall i :: 0 <= i < |regs| ==> regs[i].target == target
  }

  /** The effect of one match on the arguments state; a match that fits no entry changes nothing. */
  function Step<S, V>(actions: seq<Action<S, V>>, e: Event, s: S, convert: Converter<V>): S {
    if e.index < |actions| && |e.raw| == Arity(actions[e.index]) then
      Invoke(actions[e.index], s, e.raw, convert)
    else
      s
  }

  /** The effect of a whole scan: the matched callbacks run one after another, in token order. */
  function Run<S, V>(actions: seq<Action<S, V>>, events: seq<Event>, s: S, convert: Converter<V>): S
    decreases |events|
  {
    if events == [] then s else Run(actions, events[1..], Step(actions, events[0], s, convert), convert)
  }

  /** Running one more match after a scan applies just that match to the state reached. */
  lemma {:induction false} RunSnoc<S, V>(actions: seq<Action<S, V>>, events: seq<Event>, e: Event, s: S, convert: Converter<V>)
    ensures Run(actions, events + [e], s, convert) == Step(actions, e, Run(actions, events, s, convert), convert)
    decreases |events|
  {
    if events == [] {
      assert events + [e] == [e];
      assert [e][1..] == [];
    } else {
      assert (events + [e])[1..] == events[1..] + [e];
      RunSnoc(actions, events[1..], e, Step(actions, events[0], s, convert), convert);
    }
  }

  /** A callback runs only when the engine fires its entry: an entry no match names may hold any action. */
  lemma {:induction false} RunIgnoresUnfired<S, V>(actions: seq<Action<S, V>>, i: nat, a: Action<S, V>, events: seq<Event>, s: S, convert: Converter<V>)
    requires i < |actions| && Arity(a) == Arity(actions[i])
    requires forall k :: 0 <= k < |events| ==> events[k].index != i
    ensures Run(actions[i := a], events, s, convert) == Run(actions, events, s, convert)
    decreases |events|
  {
    if events != [] {
      assert events[0].index != i;
      assert Step(actions[i := a], events[0], s, convert) == Step(actions, events[0], s, convert);
      assert forall k :: 0 <= k < |events[1..]| ==> events[1..][k] == events[k + 1];
      RunIgnoresUnfired(actions, i, a, events[1..], Step(actions, events[0], s, convert), convert);
    }
  }

  /** The untyped option set of NDesk.Options. */
  class Engine<S, V> {
    /** The localizer given at construction; `None` when built with the default constructor. */
    const localizer: Option<Localizer>
    /** The entries, in registration order. */
    var regs: seq<Registration<S, V>>

    constructor ()
      ensures localizer == None && regs == []
    {
      localizer := None;
      regs := [];
    }

    constructor Localized(l: Localizer)
      ensures localizer == Some(l) && regs == []
    {
      localizer := Some(l);
      regs := [];
    }

    function Targets(): set<Arguments<S>>
      reads this
    {
      TargetsOf(regs)
    }

    /** The engine's `Add` overloads: one new entry at the end, nothing else changes. */
    method Add(prototype: string, description: Option<string>, action: Action<S, V>, target: Arguments<S>)
      modifies this
      ensures regs == old(regs) + [Registration(prototype, description, action, target)]
    {
      regs := regs + [Registration(prototype, description, action, target)];
    }

    /** The engine calls the closure of entry `i` with the raw values it collected. */
    method Fire(i: nat, raw: seq<string>, convert: Converter<V>)
      requires i < |regs| && |raw| == Arity(regs[i].action)
      modifies regs[i].target
      ensures regs[i].target.state == Invoke(regs[i].action, old(regs[i].target.state), raw, convert)
    {
      var r := regs[i];
      r.target.state := Invoke(r.action, r.target.state, raw, convert);
    }

    /**
      Scans `argv`, firing the matched entries in token order, and returns the
      unmatched tokens. When every entry is bound to `target`, its final state
      is the run of the matched callbacks from its state before the scan.
     */
    method Parse(argv: seq<string>, scanner: Scanner, convert: Converter<V>, ghost target: Arguments<S>)
      returns (extras: seq<string>)
      modifies Targets()
      ensures extras == scanner(ShapesOf(regs), argv).extras
      ensures AllBoundTo(regs, target) ==>
        target.state == Run(ActionsOf(regs), scanner(ShapesOf(regs), argv).events, old(target.state), convert)
    {
      var scan := scanner(ShapesOf(regs), argv);
      ghost var s0 := target.state;
      var k := 0;
      while k < |scan.events|
        invariant 0 <= k <= |scan.events|
        invariant AllBoundTo(regs, target) ==> target.state == Run(ActionsOf(regs), scan.events[..k], s0, convert)
      {
        var e := scan.events[k];
        if e.index < |regs| && |e.raw| == Arity(regs[e.index].action) {
          Fire(e.index, e.raw, convert);
        }
        RunSnoc(ActionsOf(regs), scan.events[..k], e, s0, convert);
        assert scan.events[..k + 1] == scan.events[..k] + [e];
        k := k + 1;
      }
      assert scan.events[..k] == scan.events;
      extras := scan.extras;
    }

    /** The rows the engine writes, one per entry, in registration order. */
    method WriteOptionDescriptions() returns (rows: seq<Row>)
      ensures rows == RowsOf(regs)
    {
      rows := RowsOf(regs);
    }
  }
}
