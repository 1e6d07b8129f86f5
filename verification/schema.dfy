/**
  The input side of the generator: schema nodes as the JSON documents
  describe them, the definitions table that `$ref` points into, and the
  small readings the generator makes of a node (which type drives the
  dispatch, which definition a `$ref` names, how an item index is spelled
  when it is looked up in `required`).
 */
module Schema {

  /** Outcome of a generation step; `Failure` stands for a JavaScript exception. */
  datatype Result<+T> = Success(value: T) | Failure(error: GenError) {
    predicate IsFailure() { Failure? }
    function PropagateFailure<U>(): Result<U>
      requires Failure?
    {
      Failure(error)
    }
    function Extract(): T
      requires Success?
    {
      value
    }
  }

  datatype GenError =
      /** A `$ref` whose name is not a key of the definitions table: the
          generator reads a field of `undefined` and throws. */
    | Unresolved(name: string)
      /** More nested `$ref` jumps than the fuel allows: on cyclic
          definitions the generator recurses without end. */
    | RefDepthExceeded

  datatype Option<+T> = None | Some(value: T)

  /** The `type` field: absent, one type name, or an array of names. */
  datatype TypeSpec = Untyped | Named(name: string) | Multi(names: seq<string>)

  /** The `items` field: absent, one node, or an array of nodes. */
  datatype Items = NoItems | Single(item: Node) | Many(elems: seq<Node>)

  /**
    One schema node. `ref == ""` is an absent (or empty, hence falsy) `$ref`;
    `length`, `minLength` and `maxLength` equal to 0 are absent (0 and
    `undefined` are both falsy); an absent `required` is the empty list.
    `properties` lists the object members in enumeration order.
   */
  datatype Node = Node(
    typ: TypeSpec,
    ref: string,
    properties: seq<(string, Node)>,
    items: Items,
    required: seq<string>,
    optional: bool,
    length: int,
    minLength: int,
    maxLength: int)

  /** The `properties` of the definitions document, by definition name. */
  type Defs = map<string, Node>

  /** A node with only its `type` set. */
  function Leaf(t: string): Node
  {
    Node(Named(t), "", [], NoItems, [], false, 0, 0, 0)
  }

  /**
    The type that drives the dispatch: the first element of a non-empty
    array, the name itself otherwise; an empty array (which equals no type
    name) and an absent type select nothing.
   */
  function SelectedType(t: TypeSpec): (r: Option<string>)
    ensures t.Multi? && |t.names| > 0 ==> r == Some(t.names[0])
    ensures t.Named? ==> r == Some(t.name)
    ensures r.None? <==> t.Untyped? || t == Multi([])
  {
    match t
    case Untyped => None
    case Named(n) => Some(n)
    case Multi(ns) => if |ns| > 0 then Some(ns[0]) else None
  }

  /** The branches of the type dispatch. */
  datatype Kind = StringKind | NumberKind | BoolKind | DateKind | ObjectKind | ArrayKind | NullKind | UnknownKind

  /** The type names each branch accepts; every other name is unknown. */
  function KindOf(t: Option<string>): (k: Kind)
    ensures k == StringKind <==> t == Some("string")
    ensures k == NumberKind <==> t == Some("numeric") || t == Some("number")
    ensures k == BoolKind <==> t == Some("bool") || t == Some("boolean")
    ensures k == DateKind <==> t == Some("date")
    ensures k == ObjectKind <==> t == Some("object") || t == Some("document")
    ensures k == ArrayKind <==> t == Some("array")
    ensures k == NullKind <==> t == Some("null")
  {
    match t
    case None => UnknownKind
    case Some(n) =>
      if n == "string" then StringKind
      else if n == "numeric" || n == "number" then NumberKind
      else if n == "bool" || n == "boolean" then BoolKind
      else if n == "date" then DateKind
      else if n == "object" || n == "document" then ObjectKind
      else if n == "array" then ArrayKind
      else if n == "null" then NullKind
      else UnknownKind
  }

  const DefinitionsPrefix := "#model/definitions/"

  predicate OccursAt(s: string, pat: string, i: nat)
  {
    i + |pat| <= |s| && s[i..i + |pat|] == pat
  }

  /** The first position at or after `from` where `pat` occurs in `s`. */
  function IndexOf(s: string, pat: string, from: nat): (r: Option<nat>)
    ensures r.Some? ==> from <= r.value && OccursAt(s, pat, r.value)
    ensures r.Some? ==> forall j :: from <= j < r.value ==> !OccursAt(s, pat, j)
    ensures r.None? ==> forall j :: from <= j ==> !OccursAt(s, pat, j)
    decreases |s| - from
  {
    if from + |pat| > |s| then None
    else if s[from..from + |pat|] == pat then Some(from)
    else IndexOf(s, pat, from + 1)
  }

  /**
    The definition name a `$ref` string names: the string with the first
    occurrence of the definitions prefix removed, wherever it stands (a
    string pattern replaces its first match only); a string without the
    prefix names itself.
   */
  function RefName(ref: string): (name: string)
    ensures IndexOf(ref, DefinitionsPrefix, 0).None? ==> name == ref
    ensures IndexOf(ref, DefinitionsPrefix, 0).Some? ==>
      var i := IndexOf(ref, DefinitionsPrefix, 0).value;
      name == ref[..i] + ref[i + |DefinitionsPrefix|..]
  {
    match IndexOf(ref, DefinitionsPrefix, 0)
    case None => ref
    case Some(i) => ref[..i] + ref[i + |DefinitionsPrefix|..]
  }

  /** `#model/definitions/<name>` names the definition `<name>`. */
  lemma RefNameOfPrefixed(name: string)
    ensures RefName(DefinitionsPrefix + name) == name
  {
    var s := DefinitionsPrefix + name;
    assert s[0..|DefinitionsPrefix|] == DefinitionsPrefix;
    assert IndexOf(s, DefinitionsPrefix, 0) == Some(0);
    assert s[|DefinitionsPrefix|..] == name;
  }

  function DigitChar(d: nat): (c: char)
    requires d < 10
    ensures '0' <= c <= '9'
  {
    "0123456789"[d]
  }

  function DigitValue(c: char): nat
    requires '0' <= c <= '9'
  {
    (c - '0') as nat
  }

  /** Decimal spelling of `n`, without leading zeros. */
  function NatToString(n: nat): (s: string)
    ensures |s| > 0 && forall i :: 0 <= i < |s| ==> '0' <= s[i] <= '9'
    ensures s[0] == '0' ==> n == 0 && s == "0"
    decreases n
  {
    if n < 10 then [DigitChar(n)] else NatToString(n / 10) + [DigitChar(n % 10)]
  }

  /** The number a string of decimal digits spells. */
  function ParseDigits(s: string): nat
    requires forall i :: 0 <= i < |s| ==> '0' <= s[i] <= '9'
  {
    if s == [] then 0
    else ParseDigits(s[..|s| - 1]) * 10 + DigitValue(s[|s| - 1])
  }

  lemma {:induction false} ParseNatToString(n: nat)
    ensures ParseDigits(NatToString(n)) == n
    decreases n
  {
    var s := NatToString(n);
    if n < 10 {
      assert s[..0] == [];
    } else {
      ParseNatToString(n / 10);
      assert s[..|s| - 1] == NatToString(n / 10);
    }
  }

  /**
    The key under which item `i` is looked up in `required`: `for...in`
    over an array enumerates its indices as decimal strings. Distinct
    indices have distinct keys.
   */
  function ItemKey(i: nat): (key: string)
    ensures |key| > 0 && forall j :: 0 <= j < |key| ==> '0' <= key[j] <= '9'
    ensures ParseDigits(key) == i
    ensures key[0] == '0' ==> key == "0"
  {
    ParseNatToString(i);
    NatToString(i)
  }

  lemma ItemKeyInjective(i: nat, j: nat)
    ensures ItemKey(i) == ItemKey(j) <==> i == j
  {
    if ItemKey(i) == ItemKey(j) {
      assert ParseDigits(ItemKey(i)) == ParseDigits(ItemKey(j));
    }
  }

  /** The items as a sequence: a single node is a one-element array. */
  function ItemsOf(c: Node): (items: seq<Node>)
    ensures c.items.NoItems? ==> items == []
    ensures c.items.Single? ==> items == [c.items.item]
    ensures c.items.Many? ==> items == c.items.elems
    ensures forall i :: 0 <= i < |items| ==> items[i] < c
  {
    match c.items
    case NoItems => []
    case Single(n) => [n]
    case Many(ns) => ns
  }

  /** Every property's node is a part of its container. */
  lemma PropertySmaller(c: Node, k: nat)
    requires k < |c.properties|
    ensures c.properties[k].1 < c
  {
    assert c.properties[k] in c.properties;
  }
}
