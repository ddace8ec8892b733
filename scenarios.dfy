/**
  Client scenarios in the shape of the repository's unit tests: what a caller
  can conclude from the facade's contracts alone, given what the engine's
  grammar does with the test's argument vectors.
 */
module Scenarios {
  import opened Options
  import opened UntypedEngine
  import opened TypedOptionSets

  /** The tests' `Args` record; a C# string field starts out `null`. */
  datatype Person = Person(name: Option<string>, age: int)

  const Blank := Person(None, 0)

  /** The values the engine's conversion produces for `Add<string, int>`. */
  datatype Value = Text(text: string) | Number(number: int)

  /**
    A one-value untyped option and a typed `int` option, both described;
    one set parsed twice and then described. The second parse starts again
    from a blank record: nothing of the first leaks into it.
   */
  method NameAndAge(scanner: Scanner, convert: Converter<int>)
    returns (first: Arguments<Person>, second: Arguments<Person>, rows: seq<Row>)
    requires scanner([Shape("name=", 1), Shape("age=", 1)], ["--name=Jim", "--age=34"])
          == Scan([Event(0, ["Jim"]), Event(1, ["34"])], [])
    requires scanner([Shape("name=", 1), Shape("age=", 1)], ["--age=7", "rest"])
          == Scan([Event(1, ["7"])], ["rest"])
    requires convert(TypeTag("int"), "34") == 34 && convert(TypeTag("int"), "7") == 7
    ensures first != second
    ensures first.state == Person(Some("Jim"), 34)
    ensures second.state == Person(None, 7)
    ensures rows == [Row("name=", Some("The name"), 1), Row("age=", Some("The age"), 1)]
  {
    var options := new TypedOptionSet<Person, int>(Blank);
    var chained := options.Add("name=", Some("The name"), (p: Person, v: string) => p.(name := Some(v)));
    chained := chained.AddTyped("age=", Some("The age"), TypeTag("int"), (p: Person, v: int) => p.(age := v));
    assert DeclaredShapes(options.builders) == [Shape("name=", 1), Shape("age=", 1)];

    first := options.Parse(["--name=Jim", "--age=34"], scanner, convert);
    var events := [Event(0, ["Jim"]), Event(1, ["34"])];
    assert events[1..] == [Event(1, ["34"])];
    assert first.state == Person(Some("Jim"), 34);

    var extras;
    ghost var engine;
    second, extras, engine := options.ParseWithExtras(["--age=7", "rest"], scanner, convert);
    assert extras == ["rest"];
    assert second.state == Person(None, 7);

    ghost var describer, discarded;
    rows, describer, discarded := options.WriteOptionDescriptions();
  }

  /**
    A key/value option without description, once untyped (the callback parses
    the value itself) and once typed as `<string, int>`: both callbacks get
    the key first and the value second.
   */
  method KeyedPerson(scanner: Scanner, convert: Converter<Value>, parseInt: string -> int)
    returns (untyped: Arguments<Person>, typed: Arguments<Person>, rows: seq<Row>)
    requires scanner([Shape("person=", 2)], ["--person", "Jim=34"]) == Scan([Event(0, ["Jim", "34"])], [])
    requires parseInt("34") == 34
    requires convert(TypeTag("string"), "Jim") == Text("Jim") && convert(TypeTag("int"), "34") == Number(34)
    ensures untyped.state == Person(Some("Jim"), 34)
    ensures typed.state == Person(Some("Jim"), 34)
    ensures rows == [Row("person=", None, 2)]
  {
    var plain := new TypedOptionSet<Person, Value>(Blank);
    var chained := plain.AddKeyedWithoutDescription("person=", (p: Person, k: string, v: string) => Person(Some(k), parseInt(v)));
    assert DeclaredShapes(plain.builders) == [Shape("person=", 2)];
    untyped := plain.Parse(["--person", "Jim=34"], scanner, convert);
    ghost var describer, discarded;
    rows, describer, discarded := plain.WriteOptionDescriptions();

    var generic := new TypedOptionSet<Person, Value>(Blank);
    chained := generic.AddTypedKeyedWithoutDescription("person=", TypeTag("string"), TypeTag("int"),
      (p: Person, k: Value, v: Value) => Person(if k.Text? then Some(k.text) else p.name, if v.Number? then v.number else p.age));
    assert DeclaredShapes(generic.builders) == [Shape("person=", 2)];
    typed := generic.Parse(["--person", "Jim=34"], scanner, convert);
  }
}
