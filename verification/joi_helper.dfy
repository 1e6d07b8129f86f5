/**
  The generator as the program runs it: `GenerateExpression` builds a
  node's expression by reassigning one local step by step, and
  `GenerateJoiTypes` walks the items and then the properties of a node,
  appending one entry per member to a list. Each method is proved to
  compute exactly the corresponding function of `JoiSemantics`; a
  `Failure` result is the exception the program would throw.
 */
module JoiHelper {
  import opened JoiAst
  import opened Schema
  import opened JoiSemantics

  method GenerateExpression(value: Node, defs: Defs, fuel: nat) returns (r: Result<Expr>)
    ensures r == Generate(value, defs, fuel)
    decreases fuel, value, 3, 0
  {
    if value.ref != "" {
      var model := RefName(value.ref);
      if model !in defs {
        return Failure(Unresolved(model));
      }
      if fuel == 0 {
        return Failure(RefDepthExceeded);
      }
      r := GenerateExpression(defs[model], defs, fuel - 1);
      return;
    }

    var t := SelectedType(value.typ);
    DispatchByName(value, defs, fuel);
    var expression := Undefined;
    if t == Some("string") {
      expression := StringExpression(value);
    } else if t == Some("numeric") || t == Some("number") {
      expression := NumberProperty();
    } else if t == Some("bool") || t == Some("boolean") {
      expression := BoolProperty();
    } else if t == Some("date") {
      expression := DateProperty();
    } else if t == Some("object") || t == Some("document") {
      var propList := GenerateJoiTypes(value, defs, fuel);
      if propList.Failure? {
        return Failure(propList.error);
      }
      expression := ObjectProperty(propList.value);
    } else if t == Some("array") {
      var propList := GenerateJoiTypes(value, defs, fuel);
      if propList.Failure? {
        return Failure(propList.error);
      }
      expression := ArrayProperty(propList.value);
    } else if t == Some("null") {
      expression := NullProperty();
    }

    assert Dispatch(value, defs, fuel) == Success(expression);
    if value.optional {
      expression := Optional(AllowNull(expression));
    }
    return Success(expression);
  }

  /** `Joi.string()` with its constraints chained on, one reassignment at a time. */
  method StringExpression(value: Node) returns (expression: Expr)
    ensures expression == StringChain(value)
  {
    expression := StringProperty();
    if value.length != 0 {
      expression := StringLength(expression, value.length);
    }
    if value.minLength != 0 {
      expression := StringMinLength(expression, value.minLength);
    }
    if value.maxLength != 0 {
      expression := StringMaxLength(expression, value.maxLength);
    }
  }

  /** The member list: the items' entries, then the properties' assignments. */
  method GenerateJoiTypes(jsonSchema: Node, defs: Defs, fuel: nat) returns (r: Result<seq<Expr>>)
    ensures r == Members(jsonSchema, defs, fuel)
    decreases fuel, jsonSchema, 1, 0
  {
    var items := ItemList(jsonSchema, defs, fuel);
    if items.Failure? {
      return Failure(items.error);
    }
    var props := PropertyList(jsonSchema, defs, fuel);
    if props.Failure? {
      return Failure(props.error);
    }
    return Success(items.value + props.value);
  }

  /** The first loop: one entry per item, `.required()` when its index is listed. */
  method ItemList(jsonSchema: Node, defs: Defs, fuel: nat) returns (r: Result<seq<Expr>>)
    ensures r == ItemEntries(jsonSchema, defs, fuel, |ItemsOf(jsonSchema)|)
    decreases fuel, jsonSchema, 0, 0
  {
    var propList: seq<Expr> := [];
    var itemsArray := ItemsOf(jsonSchema);
    var index := 0;
    while index < |itemsArray|
      invariant index <= |itemsArray|
      invariant ItemEntries(jsonSchema, defs, fuel, index) == Success(propList)
    {
      var expression := GenerateExpression(itemsArray[index], defs, fuel);
      ItemEntriesStep(jsonSchema, defs, fuel, index);
      if expression.Failure? {
        ItemFailureSticks(jsonSchema, defs, fuel, index + 1, |itemsArray|);
        return Failure(expression.error);
      }
      var e := expression.value;
      if ItemKey(index) in jsonSchema.required {
        e := Required(e);
      }
      propList := propList + [e];
      index := index + 1;
    }
    return Success(propList);
  }

  /** The second loop: one `key: expr` entry per property, `.required()` when its key is listed. */
  method PropertyList(jsonSchema: Node, defs: Defs, fuel: nat) returns (r: Result<seq<Expr>>)
    ensures r == PropEntries(jsonSchema, defs, fuel, |jsonSchema.properties|)
    decreases fuel, jsonSchema, 0, 0
  {
    var propList: seq<Expr> := [];
    var k := 0;
    while k < |jsonSchema.properties|
      invariant k <= |jsonSchema.properties|
      invariant PropEntries(jsonSchema, defs, fuel, k) == Success(propList)
    {
      var (key, value) := jsonSchema.properties[k];
      PropertySmaller(jsonSchema, k);
      var expression := GenerateExpression(value, defs, fuel);
      PropEntriesStep(jsonSchema, defs, fuel, k);
      if expression.Failure? {
        PropFailureSticks(jsonSchema, defs, fuel, k + 1, |jsonSchema.properties|);
        return Failure(expression.error);
      }
      var e := expression.value;
      if key in jsonSchema.required {
        e := Required(e);
      }
      propList := propList + [Assign(key, e)];
      k := k + 1;
    }
    return Success(propList);
  }

  method GenerateJoiObjects(jsonSchema: Node, defs: Defs, fuel: nat) returns (r: Result<Stmt>)
    ensures r == SchemaStatement(jsonSchema, defs, fuel)
  {
    var propList := GenerateJoiTypes(jsonSchema, defs, fuel);
    if propList.Failure? {
      return Failure(propList.error);
    }
    return Success(ConstDecl("schema", ObjectProperty(propList.value)));
  }
}
