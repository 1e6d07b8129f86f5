/**
  What the generator computes, as functions: the expression for one schema
  node (`Generate`), the member list of an object or array node (`Members`)
  and the top-level `const schema = ...` statement (`SchemaStatement`).

  `$ref` jumps into the definitions table do not make the node smaller, so
  every function carries `fuel`, the number of nested `$ref` jumps it may
  still take; running out is the `RefDepthExceeded` failure.
 */
module JoiSemantics {
  import opened JoiAst
  import opened Schema

  /** The calls the optional wrap adds: `allow(null)` inside, `optional()` outside. */
  function OptionalLinks(optional: bool): seq<Link>
  {
    if optional then [Link("allow", [NullLit]), Link("optional", [])] else []
  }

  /** `e.allow(null).optional()` when the node is optional: nullability inside. */
  function WrapOptional(e: Expr, optional: bool): (r: Expr)
    ensures Head(r) == Head(e)
    ensures Links(r) == Links(e) + OptionalLinks(optional)
  {
    if optional then Optional(AllowNull(e)) else e
  }

  /** `e.required()` when the member is listed as required. */
  function WrapRequired(e: Expr, required: bool): (r: Expr)
    ensures Head(r) == Head(e)
    ensures Links(r) == Links(e) + (if required then [Link("required", [])] else [])
  {
    if required then Required(e) else e
  }

  /** The calls a string constraint adds: none when the constraint is falsy. */
  function ConstraintLinks(name: string, n: int): seq<Link>
  {
    if n != 0 then [Link(name, [NumLit(n)])] else []
  }

  /** `Joi.string()`, then `.length(n)`, `.min(n)`, `.max(n)` for each truthy constraint. */
  function StringChain(v: Node): (e: Expr)
    ensures Head(e) == Ident(JoiName)
    ensures Links(e) == [Link("string", [])] + ConstraintLinks("length", v.length)
                        + ConstraintLinks("min", v.minLength) + ConstraintLinks("max", v.maxLength)
  {
    var e0 := StringProperty();
    var e1 := if v.length != 0 then StringLength(e0, v.length) else e0;
    var e2 := if v.minLength != 0 then StringMinLength(e1, v.minLength) else e1;
    if v.maxLength != 0 then StringMaxLength(e2, v.maxLength) else e2
  }

  /** The expression for node `v`: its `$ref` target's, or its type's, optionally wrapped. */
  function Generate(v: Node, defs: Defs, fuel: nat): Result<Expr>
    decreases fuel, v, 3, 0
  {
    if v.ref != "" then
      var name := RefName(v.ref);
      if name !in defs then Failure(Unresolved(name))
      else if fuel == 0 then Failure(RefDepthExceeded)
      else Generate(defs[name], defs, fuel - 1)
    else
      match Dispatch(v, defs, fuel)
      case Failure(err) => Failure(err)
      case Success(e) => Success(WrapOptional(e, v.optional))
  }

  /** The expression the type dispatch produces, before any optional wrap. */
  function Dispatch(v: Node, defs: Defs, fuel: nat): Result<Expr>
    decreases fuel, v, 2, 0
  {
    match KindOf(SelectedType(v.typ))
    case StringKind => Success(StringChain(v))
    case NumberKind => Success(NumberProperty())
    case BoolKind => Success(BoolProperty())
    case DateKind => Success(DateProperty())
    case ObjectKind =>
      (match Members(v, defs, fuel)
       case Failure(err) => Failure(err)
       case Success(ms) => Success(ObjectProperty(ms)))
    case ArrayKind =>
      (match Members(v, defs, fuel)
       case Failure(err) => Failure(err)
       case Success(ms) => Success(ArrayProperty(ms)))
    case NullKind => Success(NullProperty())
    case UnknownKind => Success(Undefined)
  }

  /** The dispatch table, one type name at a time. */
  lemma DispatchByName(v: Node, defs: Defs, fuel: nat)
    ensures var t := SelectedType(v.typ);
      && (t == Some("string") ==> Dispatch(v, defs, fuel) == Success(StringChain(v)))
      && (t == Some("numeric") || t == Some("number") ==> Dispatch(v, defs, fuel) == Success(NumberProperty()))
      && (t == Some("bool") || t == Some("boolean") ==> Dispatch(v, defs, fuel) == Success(BoolProperty()))
      && (t == Some("date") ==> Dispatch(v, defs, fuel) == Success(DateProperty()))
      && (t == Some("object") || t == Some("document") ==>
            Dispatch(v, defs, fuel) == match Members(v, defs, fuel)
                                       case Success(ms) => Success(ObjectProperty(ms))
                                       case Failure(err) => Failure(err))
      && (t == Some("array") ==>
            Dispatch(v, defs, fuel) == match Members(v, defs, fuel)
                                       case Success(ms) => Success(ArrayProperty(ms))
                                       case Failure(err) => Failure(err))
      && (t == Some("null") ==> Dispatch(v, defs, fuel) == Success(NullProperty()))
      && (KindOf(t) == UnknownKind ==> Dispatch(v, defs, fuel) == Success(Undefined))
  {
    match KindOf(SelectedType(v.typ))
    case StringKind =>
    case NumberKind =>
    case BoolKind =>
    case DateKind =>
    case ObjectKind =>
    case ArrayKind =>
    case NullKind =>
    case UnknownKind =>
  }

  /** The member list of `c`: its items' expressions, then its properties' assignments. */
  function Members(c: Node, defs: Defs, fuel: nat): Result<seq<Expr>>
    decreases fuel, c, 1, 0
  {
    match ItemEntries(c, defs, fuel, |ItemsOf(c)|)
    case Failure(err) => Failure(err)
    case Success(items) =>
      match PropEntries(c, defs, fuel, |c.properties|)
      case Failure(err) => Failure(err)
      case Success(props) => Success(items + props)
  }

  /** A member list is the items' entries followed by the properties' entries. */
  lemma MembersConcat(c: Node, defs: Defs, fuel: nat)
    requires Members(c, defs, fuel).Success?
    ensures ItemEntries(c, defs, fuel, |ItemsOf(c)|).Success?
    ensures PropEntries(c, defs, fuel, |c.properties|).Success?
    ensures Members(c, defs, fuel).value
            == ItemEntries(c, defs, fuel, |ItemsOf(c)|).value + PropEntries(c, defs, fuel, |c.properties|).value
  {
  }

  /** The entries of the first `n` items of `c`. */
  function ItemEntries(c: Node, defs: Defs, fuel: nat, n: nat): (r: Result<seq<Expr>>)
    requires n <= |ItemsOf(c)|
    ensures r.Success? ==> |r.value| == n
    decreases fuel, c, 0, n
  {
    if n == 0 then Success([])
    else
      match ItemEntries(c, defs, fuel, n - 1)
      case Failure(err) => Failure(err)
      case Success(prev) =>
        match Generate(ItemsOf(c)[n - 1], defs, fuel)
        case Failure(err) => Failure(err)
        case Success(e) => Success(prev + [WrapRequired(e, ItemKey(n - 1) in c.required)])
  }

  /** The `key: expr` entries of the first `n` properties of `c`. */
  function PropEntries(c: Node, defs: Defs, fuel: nat, n: nat): (r: Result<seq<Expr>>)
    requires n <= |c.properties|
    ensures r.Success? ==> |r.value| == n
    decreases fuel, c, 0, n
  {
    if n == 0 then Success([])
    else
      match PropEntries(c, defs, fuel, n - 1)
      case Failure(err) => Failure(err)
      case Success(prev) =>
        var (key, child) := c.properties[n - 1];
        PropertySmaller(c, n - 1);
        match Generate(child, defs, fuel)
        case Failure(err) => Failure(err)
        case Success(e) => Success(prev + [Assign(key, WrapRequired(e, key in c.required))])
  }

  /** One more item: its entry is appended, or its failure ends the list. */
  lemma ItemEntriesStep(c: Node, defs: Defs, fuel: nat, n: nat)
    requires n < |ItemsOf(c)|
    requires ItemEntries(c, defs, fuel, n).Success?
    ensures var g := Generate(ItemsOf(c)[n], defs, fuel);
      ItemEntries(c, defs, fuel, n + 1)
        == if g.Failure? then Failure(g.error)
           else Success(ItemEntries(c, defs, fuel, n).value + [WrapRequired(g.value, ItemKey(n) in c.required)])
  {
  }

  /** One more property: its assignment is appended, or its failure ends the list. */
  lemma PropEntriesStep(c: Node, defs: Defs, fuel: nat, n: nat)
    requires n < |c.properties|
    requires PropEntries(c, defs, fuel, n).Success?
    ensures var g := Generate(c.properties[n].1, defs, fuel);
      PropEntries(c, defs, fuel, n + 1)
        == if g.Failure? then Failure(g.error)
           else Success(PropEntries(c, defs, fuel, n).value
                        + [Assign(c.properties[n].0, WrapRequired(g.value, c.properties[n].0 in c.required))])
  {
  }

  /** Once the entries of a prefix of the items fail, every longer prefix fails the same way. */
  lemma {:induction false} ItemFailureSticks(c: Node, defs: Defs, fuel: nat, n: nat, m: nat)
    requires n <= m <= |ItemsOf(c)|
    requires ItemEntries(c, defs, fuel, n).Failure?
    ensures ItemEntries(c, defs, fuel, m) == ItemEntries(c, defs, fuel, n)
    decreases m
  {
    if m > n {
      ItemFailureSticks(c, defs, fuel, n, m - 1);
    }
  }

  /** Once the entries of a prefix of the properties fail, every longer prefix fails the same way. */
  lemma {:induction false} PropFailureSticks(c: Node, defs: Defs, fuel: nat, n: nat, m: nat)
    requires n <= m <= |c.properties|
    requires PropEntries(c, defs, fuel, n).Failure?
    ensures PropEntries(c, defs, fuel, m) == PropEntries(c, defs, fuel, n)
    decreases m
  {
    if m > n {
      PropFailureSticks(c, defs, fuel, n, m - 1);
    }
  }

  /** `const schema = Joi.object().keys({ members of root });` */
  function SchemaStatement(root: Node, defs: Defs, fuel: nat): (r: Result<Stmt>)
    ensures r.Success? ==> r.value.name == "schema" && Head(r.value.init) == Ident(JoiName)
                           && |Links(r.value.init)| == 2 && Links(r.value.init)[0] == Link("object", [])
                           && Links(r.value.init)[1].name == "keys"
  {
    var ms :- Members(root, defs, fuel);
    Success(ConstDecl("schema", ObjectProperty(ms)))
  }
}
