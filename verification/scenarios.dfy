/**
  Concrete schemas and what the generator makes of them.
 */
module JoiScenarios {
  import opened JoiAst
  import opened Schema
  import opened JoiSemantics
  import opened JoiProperties

  /** `{type: "object", properties: {name: {type: "string", minLength: 2}}, required: ["name"]}` */
  function PersonSchema(): Node
  {
    Node(Named("object"), "", [("name", Leaf("string").(minLength := 2))], NoItems, ["name"], false, 0, 0, 0)
  }

  /** `{type: "array", items: {type: "number"}}` */
  function NumbersSchema(): Node
  {
    Node(Named("array"), "", [], Single(Leaf("number")), [], false, 0, 0, 0)
  }

  /** `{type: "object", properties: {city: {type: "string"}}}` */
  function AddressDefinition(): Node
  {
    Node(Named("object"), "", [("city", Leaf("string"))], NoItems, [], false, 0, 0, 0)
  }

  /** `{$ref: "#model/definitions/Address"}` */
  function AddressReference(): Node
  {
    Node(Untyped, DefinitionsPrefix + "Address", [], NoItems, [], false, 0, 0, 0)
  }

  /** `const schema = Joi.object().keys({ name: Joi.string().min(2).required() });` */
  lemma PersonStatement(fuel: nat)
    ensures SchemaStatement(PersonSchema(), map[], fuel)
              == Success(ConstDecl("schema",
                   ObjectProperty([Assign("name", Required(StringMinLength(StringProperty(), 2)))])))
  {
    var c := PersonSchema();
    var child := c.properties[0].1;
    DispatchByName(child, map[], fuel);
    assert Generate(child, map[], fuel) == Success(StringMinLength(StringProperty(), 2));
    MemberListShape(c, map[], fuel);
    var ms := Members(c, map[], fuel).value;
    assert ms == [ms[0]];
  }

  /**
    Nested, an array node is `Joi.array().items(Joi.number())`; as the root
    its type is never looked at, so the statement is an object over the
    same member list.
   */
  lemma NumbersExpression(fuel: nat)
    ensures Generate(NumbersSchema(), map[], fuel) == Success(ArrayProperty([NumberProperty()]))
    ensures SchemaStatement(NumbersSchema(), map[], fuel)
              == Success(ConstDecl("schema", ObjectProperty([NumberProperty()])))
  {
    var c := NumbersSchema();
    DispatchByName(Leaf("number"), map[], fuel);
    assert Generate(ItemsOf(c)[0], map[], fuel) == Success(NumberProperty());
    MemberListShape(c, map[], fuel);
    var ms := Members(c, map[], fuel).value;
    assert ms == [ms[0]];
    DispatchByName(c, map[], fuel);
  }

  /** The `Address` definition is `Joi.object().keys({ city: Joi.string() })` at any fuel. */
  lemma AddressExpression(defs: Defs, fuel: nat)
    ensures Generate(AddressDefinition(), defs, fuel)
              == Success(ObjectProperty([Assign("city", StringProperty())]))
  {
    var d := AddressDefinition();
    DispatchByName(Leaf("string"), defs, fuel);
    assert Generate(d.properties[0].1, defs, fuel) == Success(StringProperty());
    MemberListShape(d, defs, fuel);
    var ms := Members(d, defs, fuel).value;
    assert ms == [ms[0]];
    DispatchByName(d, defs, fuel);
  }

  /**
    Nested, a reference to `Address` yields exactly the inlined
    definition's expression; as the root, the `$ref` is never looked at
    and the statement is an object with no keys.
   */
  lemma AddressByReference(fuel: nat)
    requires fuel > 0
    ensures var defs := map["Address" := AddressDefinition()];
            && Generate(AddressReference(), defs, fuel)
                 == Success(ObjectProperty([Assign("city", StringProperty())]))
            && Generate(AddressDefinition(), defs, fuel) == Generate(AddressReference(), defs, fuel)
            && SchemaStatement(AddressReference(), defs, fuel) == Success(ConstDecl("schema", ObjectProperty([])))
  {
    var defs := map["Address" := AddressDefinition()];
    RefNameOfPrefixed("Address");
    assert Generate(AddressReference(), defs, fuel) == Generate(AddressDefinition(), defs, fuel - 1);
    AddressExpression(defs, fuel - 1);
    AddressExpression(defs, fuel);
    var r := AddressReference();
    assert |ItemsOf(r)| == 0 && |r.properties| == 0;
    assert ItemEntries(r, defs, fuel, 0) == Success([]);
    assert PropEntries(r, defs, fuel, 0) == Success([]);
    assert Members(r, defs, fuel) == Success([] + []);
    assert Members(r, defs, fuel).value == [];
    assert SchemaStatement(r, defs, fuel) == Success(ConstDecl("schema", ObjectProperty([])));
  }

  /** The prefix is removed where it first occurs, not only at the start. */
  lemma RefNameRemovesFirstOccurrence()
    ensures RefName("Foo" + DefinitionsPrefix + "Bar") == "FooBar"
  {
    var s := "Foo" + DefinitionsPrefix + "Bar";
    var p := DefinitionsPrefix;
    assert s[3..3 + |p|] == p;
    assert IndexOf(s, p, 3) == Some(3);
    assert s[2..2 + |p|][0] != p[0];
    assert IndexOf(s, p, 2) == Some(3);
    assert s[1..1 + |p|][0] != p[0];
    assert IndexOf(s, p, 1) == Some(3);
    assert s[0..|p|][0] != p[0];
    assert IndexOf(s, p, 0) == Some(3);
    assert s[..3] + s[3 + |p|..] == "FooBar";
  }

  /** Item indices are looked up in `required` as decimal strings. */
  lemma ItemKeysAreDecimal()
    ensures ItemKey(0) == "0" && ItemKey(7) == "7" && ItemKey(12) == "12"
  {
    assert NatToString(12) == NatToString(1) + [DigitChar(2)];
  }

  /** Listing `"0"` in `required` marks the first item required. */
  lemma FirstItemRequired(fuel: nat)
    ensures var c := NumbersSchema().(required := ["0"]);
            Generate(c, map[], fuel) == Success(ArrayProperty([Required(NumberProperty())]))
  {
    var c := NumbersSchema().(required := ["0"]);
    ItemKeysAreDecimal();
    DispatchByName(Leaf("number"), map[], fuel);
    assert Generate(ItemsOf(c)[0], map[], fuel) == Success(NumberProperty());
    MemberListShape(c, map[], fuel);
    var ms := Members(c, map[], fuel).value;
    assert ms == [ms[0]];
    DispatchByName(c, map[], fuel);
  }
}
