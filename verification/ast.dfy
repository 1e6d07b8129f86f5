/**
  The expression trees the generator builds: the small subset of the
  TypeScript factory's node kinds that a Joi call chain needs, plus the
  leaf builders (`Joi.string()`, ...) and the one-call wrappers
  (`.required()`, `.allow(null)`, `.min(n)`, ...).

  A fluent chain `Joi.string().min(2).required()` is a `Call` whose callee is
  an `Access` on another `Call`, and so on down to the identifier `Joi`.
  `Head` and `Links` read such a tree back as "base expression followed by
  a list of method calls"; `Rebuild` goes the other way.
 */
module JoiAst {

  datatype Expr =
    | Ident(name: string)
    | NullLit
    | NumLit(num: int)
    | Access(target: Expr, member: string)
    | Call(callee: Expr, args: seq<Expr>)
    | ObjLit(entries: seq<Expr>)
    | Assign(key: string, init: Expr)
      /** The JavaScript value `undefined`, handed to the factory where the
          generator produced no expression (an unrecognised type). */
    | Undefined

  /** `const <name> = <init>;` */
  datatype Stmt = ConstDecl(name: string, init: Expr)

  /** One `.method(args)` step of a fluent chain. */
  datatype Link = Link(name: string, args: seq<Expr>)

  /** The expression a chain of method calls starts from. */
  function Head(e: Expr): Expr
  {
    match e
    case Call(Access(t, _), _) => Head(t)
    case _ => e
  }

  /** The method calls applied to `Head(e)`, innermost first. */
  function Links(e: Expr): seq<Link>
  {
    match e
    case Call(Access(t, m), args) => Links(t) + [Link(m, args)]
    case _ => []
  }

  /** Applies the calls `links` to `head`, innermost first. */
  function Rebuild(head: Expr, links: seq<Link>): Expr
  {
    if links == [] then head
    else
      var last := links[|links| - 1];
      Call(Access(Rebuild(head, links[..|links| - 1]), last.name), last.args)
  }

  /** A chain head is never itself a method call. */
  predicate IsHead(e: Expr)
  {
    !(e.Call? && e.callee.Access?)
  }

  lemma {:induction false} RebuildChain(e: Expr)
    ensures IsHead(Head(e))
    ensures Rebuild(Head(e), Links(e)) == e
  {
    match e
    case Call(Access(t, m), args) =>
      RebuildChain(t);
      var ls := Links(t) + [Link(m, args)];
      assert ls[..|ls| - 1] == Links(t);
    case _ =>
  }

  lemma {:induction false} ChainOfRebuild(head: Expr, links: seq<Link>)
    requires IsHead(head)
    ensures Head(Rebuild(head, links)) == head
    ensures Links(Rebuild(head, links)) == links
  {
    if links != [] {
      ChainOfRebuild(head, links[..|links| - 1]);
      assert links[..|links| - 1] + [links[|links| - 1]] == links;
    }
  }

  /** `target.name(args)`: one more call on the chain. */
  function Invoke(target: Expr, name: string, args: seq<Expr>): (r: Expr)
    ensures Head(r) == Head(target)
    ensures Links(r) == Links(target) + [Link(name, args)]
  {
    Call(Access(target, name), args)
  }

  const JoiName := "Joi"

  /** `Joi.<builder>()` */
  function JoiBuilder(builder: string): (r: Expr)
    ensures Head(r) == Ident(JoiName)
    ensures Links(r) == [Link(builder, [])]
  {
    Invoke(Ident(JoiName), builder, [])
  }

  /** `Joi.object().keys({ members })` */
  function ObjectProperty(members: seq<Expr>): (r: Expr)
    ensures Head(r) == Ident(JoiName)
    ensures Links(r) == [Link("object", []), Link("keys", [ObjLit(members)])]
  {
    Invoke(JoiBuilder("object"), "keys", [ObjLit(members)])
  }

  /** `Joi.date()` */
  function DateProperty(): (r: Expr)
    ensures Head(r) == Ident(JoiName) && Links(r) == [Link("date", [])]
  {
    JoiBuilder("date")
  }

  /** `Joi.bool()` */
  function BoolProperty(): (r: Expr)
    ensures Head(r) == Ident(JoiName) && Links(r) == [Link("bool", [])]
  {
    JoiBuilder("bool")
  }

  /** `Joi.string()` */
  function StringProperty(): (r: Expr)
    ensures Head(r) == Ident(JoiName) && Links(r) == [Link("string", [])]
  {
    JoiBuilder("string")
  }

  /** `Joi.number()` */
  function NumberProperty(): (r: Expr)
    ensures Head(r) == Ident(JoiName) && Links(r) == [Link("number", [])]
  {
    JoiBuilder("number")
  }

  /** `Joi.valid(null).required()`: a null-typed value is always mandatory. */
  function NullProperty(): (r: Expr)
    ensures Head(r) == Ident(JoiName)
    ensures Links(r) == [Link("valid", [NullLit]), Link("required", [])]
  {
    Required(Invoke(Ident(JoiName), "valid", [NullLit]))
  }

  /** `Joi.array().items(members...)`: the members are the call's arguments. */
  function ArrayProperty(members: seq<Expr>): (r: Expr)
    ensures Head(r) == Ident(JoiName)
    ensures Links(r) == [Link("array", []), Link("items", members)]
  {
    Invoke(JoiBuilder("array"), "items", members)
  }

  /** `e.required()` */
  function Required(e: Expr): (r: Expr)
    ensures Head(r) == Head(e) && Links(r) == Links(e) + [Link("required", [])]
  {
    Invoke(e, "required", [])
  }

  /** `e.optional()` */
  function Optional(e: Expr): (r: Expr)
    ensures Head(r) == Head(e) && Links(r) == Links(e) + [Link("optional", [])]
  {
    Invoke(e, "optional", [])
  }

  /** `e.allow(null)` */
  function AllowNull(e: Expr): (r: Expr)
    ensures Head(r) == Head(e) && Links(r) == Links(e) + [Link("allow", [NullLit])]
  {
    Invoke(e, "allow", [NullLit])
  }

  /** `e.min(n)` */
  function StringMinLength(e: Expr, n: int): (r: Expr)
    ensures Head(r) == Head(e) && Links(r) == Links(e) + [Link("min", [NumLit(n)])]
  {
    Invoke(e, "min", [NumLit(n)])
  }

  /** `e.max(n)` */
  function StringMaxLength(e: Expr, n: int): (r: Expr)
    ensures Head(r) == Head(e) && Links(r) == Links(e) + [Link("max", [NumLit(n)])]
  {
    Invoke(e, "max", [NumLit(n)])
  }

  /** `e.length(n)` */
  function StringLength(e: Expr, n: int): (r: Expr)
    ensures Head(r) == Head(e) && Links(r) == Links(e) + [Link("length", [NumLit(n)])]
  {
    Invoke(e, "length", [NumLit(n)])
  }
}
