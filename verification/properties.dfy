/**
  Properties of the generator: how a string node's constraints are
  chained, which type of a multi-type node counts, what a `$ref` resolves
  to, how the optional and required wraps nest, the shape of a member
  list, and what the root statement is.
 */
module JoiProperties {
  import opened JoiAst
  import opened Schema
  import opened JoiSemantics

  /** The failure that only a too-small fuel bound produces. */
  predicate Exhausted<T>(r: Result<T>)
  {
    r.Failure? && r.error == RefDepthExceeded
  }

  // ---------------------------------------------------------------------
  // A member list depends only on the container's items, properties and
  // required list.

  lemma {:induction false} ItemEntriesCongruent(c: Node, c': Node, defs: Defs, fuel: nat, n: nat)
    requires ItemsOf(c) == ItemsOf(c') && c.required == c'.required
    requires n <= |ItemsOf(c)|
    ensures ItemEntries(c, defs, fuel, n) == ItemEntries(c', defs, fuel, n)
    decreases n
  {
    if n > 0 {
      ItemEntriesCongruent(c, c', defs, fuel, n - 1);
    }
  }

  lemma {:induction false} PropEntriesCongruent(c: Node, c': Node, defs: Defs, fuel: nat, n: nat)
    requires c.properties == c'.properties && c.required == c'.required
    requires n <= |c.properties|
    ensures PropEntries(c, defs, fuel, n) == PropEntries(c', defs, fuel, n)
    decreases n
  {
    if n > 0 {
      PropEntriesCongruent(c, c', defs, fuel, n - 1);
    }
  }

  /** Two containers with the same items, properties and required list have the same members. */
  lemma MembersCongruent(c: Node, c': Node, defs: Defs, fuel: nat)
    requires ItemsOf(c) == ItemsOf(c') && c.properties == c'.properties && c.required == c'.required
    ensures Members(c, defs, fuel) == Members(c', defs, fuel)
  {
    ItemEntriesCongruent(c, c', defs, fuel, |ItemsOf(c)|);
    PropEntriesCongruent(c, c', defs, fuel, |c.properties|);
  }

  // ---------------------------------------------------------------------
  // Member list shape.

  lemma {:induction false} ItemEntriesSucceed(c: Node, defs: Defs, fuel: nat, n: nat)
    requires n <= |ItemsOf(c)|
    ensures ItemEntries(c, defs, fuel, n).Success?
            <==> forall i :: 0 <= i < n ==> Generate(ItemsOf(c)[i], defs, fuel).Success?
    decreases n
  {
    if ItemEntries(c, defs, fuel, n).Success? {
      ItemEntriesValues(c, defs, fuel, n);
    } else if n > 0 {
      ItemEntriesSucceed(c, defs, fuel, n - 1);
      if ItemEntries(c, defs, fuel, n - 1).Success? {
        ItemEntriesStep(c, defs, fuel, n - 1);
        assert !Generate(ItemsOf(c)[n - 1], defs, fuel).Success?;
      } else {
        var j :| 0 <= j < n - 1 && !Generate(ItemsOf(c)[j], defs, fuel).Success?;
      }
    }
  }

  /** Entry i of a successful items prefix is item i's expression, required-wrapped when listed. */
  lemma {:induction false} ItemEntryAt(c: Node, defs: Defs, fuel: nat, n: nat, i: nat)
    requires i < n <= |ItemsOf(c)| && ItemEntries(c, defs, fuel, n).Success?
    ensures Generate(ItemsOf(c)[i], defs, fuel).Success?
    ensures ItemEntries(c, defs, fuel, n).value[i]
              == WrapRequired(Generate(ItemsOf(c)[i], defs, fuel).value, ItemKey(i) in c.required)
    decreases n
  {
    assert ItemEntries(c, defs, fuel, n - 1).Success?;
    ItemEntriesStep(c, defs, fuel, n - 1);
    var prev := ItemEntries(c, defs, fuel, n - 1).value;
    var last := Generate(ItemsOf(c)[n - 1], defs, fuel);
    assert last.Success?;
    assert ItemEntries(c, defs, fuel, n).value == prev + [WrapRequired(last.value, ItemKey(n - 1) in c.required)];
    if i < n - 1 {
      ItemEntryAt(c, defs, fuel, n - 1, i);
      assert ItemEntries(c, defs, fuel, n).value[i] == prev[i];
    } else {
      assert ItemsOf(c)[i] == ItemsOf(c)[n - 1];
    }
  }

  lemma ItemEntriesValues(c: Node, defs: Defs, fuel: nat, n: nat)
    requires n <= |ItemsOf(c)| && ItemEntries(c, defs, fuel, n).Success?
    ensures forall i :: 0 <= i < n ==>
              Generate(ItemsOf(c)[i], defs, fuel).Success?
              && ItemEntries(c, defs, fuel, n).value[i]
                   == WrapRequired(Generate(ItemsOf(c)[i], defs, fuel).value, ItemKey(i) in c.required)
  {
    forall i | 0 <= i < n
      ensures Generate(ItemsOf(c)[i], defs, fuel).Success?
      ensures ItemEntries(c, defs, fuel, n).value[i]
                == WrapRequired(Generate(ItemsOf(c)[i], defs, fuel).value, ItemKey(i) in c.required)
    {
      ItemEntryAt(c, defs, fuel, n, i);
    }
  }

  lemma {:induction false} PropEntriesSucceed(c: Node, defs: Defs, fuel: nat, n: nat)
    requires n <= |c.properties|
    ensures PropEntries(c, defs, fuel, n).Success?
            <==> forall k :: 0 <= k < n ==> Generate(c.properties[k].1, defs, fuel).Success?
    decreases n
  {
    if PropEntries(c, defs, fuel, n).Success? {
      PropEntriesValues(c, defs, fuel, n);
    } else if n > 0 {
      PropEntriesSucceed(c, defs, fuel, n - 1);
      if PropEntries(c, defs, fuel, n - 1).Success? {
        PropEntriesStep(c, defs, fuel, n - 1);
        assert !Generate(c.properties[n - 1].1, defs, fuel).Success?;
      } else {
        var j :| 0 <= j < n - 1 && !Generate(c.properties[j].1, defs, fuel).Success?;
      }
    }
  }

  /** Entry k of a successful properties prefix is `key_k: expr_k`, required-wrapped when listed. */
  lemma {:induction false} PropEntryAt(c: Node, defs: Defs, fuel: nat, n: nat, k: nat)
    requires k < n <= |c.properties| && PropEntries(c, defs, fuel, n).Success?
    ensures Generate(c.properties[k].1, defs, fuel).Success?
    ensures PropEntries(c, defs, fuel, n).value[k]
              == Assign(c.properties[k].0,
                        WrapRequired(Generate(c.properties[k].1, defs, fuel).value, c.properties[k].0 in c.required))
    decreases n
  {
    assert PropEntries(c, defs, fuel, n - 1).Success?;
    PropEntriesStep(c, defs, fuel, n - 1);
    var prev := PropEntries(c, defs, fuel, n - 1).value;
    var (key, child) := c.properties[n - 1];
    var last := Generate(child, defs, fuel);
    assert last.Success?;
    assert PropEntries(c, defs, fuel, n).value == prev + [Assign(key, WrapRequired(last.value, key in c.required))];
    if k < n - 1 {
      PropEntryAt(c, defs, fuel, n - 1, k);
      assert PropEntries(c, defs, fuel, n).value[k] == prev[k];
    } else {
      assert c.properties[k] == c.properties[n - 1];
    }
  }

  lemma PropEntriesValues(c: Node, defs: Defs, fuel: nat, n: nat)
    requires n <= |c.properties| && PropEntries(c, defs, fuel, n).Success?
    ensures forall k :: 0 <= k < n ==>
              Generate(c.properties[k].1, defs, fuel).Success?
              && PropEntries(c, defs, fuel, n).value[k]
                   == Assign(c.properties[k].0,
                             WrapRequired(Generate(c.properties[k].1, defs, fuel).value,
                                          c.properties[k].0 in c.required))
  {
    forall k | 0 <= k < n
      ensures Generate(c.properties[k].1, defs, fuel).Success?
      ensures PropEntries(c, defs, fuel, n).value[k]
                == Assign(c.properties[k].0,
                          WrapRequired(Generate(c.properties[k].1, defs, fuel).value, c.properties[k].0 in c.required))
    {
      PropEntryAt(c, defs, fuel, n, k);
    }
  }

  /**
    The member list succeeds exactly when every item and every property
    does; it then holds one entry per item, in item order, followed by one
    `key: expr` entry per property, in property order. An item's entry gets
    `.required()` exactly when its decimal index is listed in `required`,
    a property's exactly when its key is.
   */
  lemma MemberListShape(c: Node, defs: Defs, fuel: nat)
    ensures Members(c, defs, fuel).Success?
            <==> (forall i :: 0 <= i < |ItemsOf(c)| ==> Generate(ItemsOf(c)[i], defs, fuel).Success?)
                 && (forall k :: 0 <= k < |c.properties| ==> Generate(c.properties[k].1, defs, fuel).Success?)
    ensures Members(c, defs, fuel).Success? ==>
              var ms := Members(c, defs, fuel).value;
              var n := |ItemsOf(c)|;
              && |ms| == n + |c.properties|
              && (forall i :: 0 <= i < n ==>
                    ms[i] == WrapRequired(Generate(ItemsOf(c)[i], defs, fuel).value, ItemKey(i) in c.required))
              && (forall k :: 0 <= k < |c.properties| ==>
                    ms[n + k] == Assign(c.properties[k].0,
                                        WrapRequired(Generate(c.properties[k].1, defs, fuel).value,
                                                     c.properties[k].0 in c.required)))
  {
    if Members(c, defs, fuel).Success? {
      MemberItemValues(c, defs, fuel);
      MemberPropertyValues(c, defs, fuel);
    } else {
      ItemEntriesSucceed(c, defs, fuel, |ItemsOf(c)|);
      PropEntriesSucceed(c, defs, fuel, |c.properties|);
    }
  }

  /** The first |items| entries of a member list are the items' entries. */
  lemma MemberItemValues(c: Node, defs: Defs, fuel: nat)
    requires Members(c, defs, fuel).Success?
    ensures |Members(c, defs, fuel).value| == |ItemsOf(c)| + |c.properties|
    ensures forall i :: 0 <= i < |ItemsOf(c)| ==>
              Generate(ItemsOf(c)[i], defs, fuel).Success?
              && Members(c, defs, fuel).value[i]
                   == WrapRequired(Generate(ItemsOf(c)[i], defs, fuel).value, ItemKey(i) in c.required)
  {
    var n := |ItemsOf(c)|;
    MembersConcat(c, defs, fuel);
    ItemEntriesValues(c, defs, fuel, n);
  }

  /** The remaining entries of a member list are the properties' `key: expr` entries. */
  lemma MemberPropertyValues(c: Node, defs: Defs, fuel: nat)
    requires Members(c, defs, fuel).Success?
    ensures forall k :: 0 <= k < |c.properties| ==>
              Generate(c.properties[k].1, defs, fuel).Success?
              && Members(c, defs, fuel).value[|ItemsOf(c)| + k]
                   == Assign(c.properties[k].0,
                             WrapRequired(Generate(c.properties[k].1, defs, fuel).value,
                                          c.properties[k].0 in c.required))
  {
    var n := |ItemsOf(c)|;
    MembersConcat(c, defs, fuel);
    PropEntriesValues(c, defs, fuel, |c.properties|);
    var items := ItemEntries(c, defs, fuel, n).value;
    var props := PropEntries(c, defs, fuel, |c.properties|).value;
    forall k | 0 <= k < |props|
      ensures (items + props)[n + k] == props[k]
    {
    }
  }

  /**
    The required wrap is the outermost call of an entry and changes nothing
    else: the entry's chain is the item's own chain, followed by
    `.required()` exactly when the item's index is listed.
   */
  lemma ItemRequiredOutermost(c: Node, defs: Defs, fuel: nat, i: nat)
    requires Members(c, defs, fuel).Success? && i < |ItemsOf(c)|
    ensures Generate(ItemsOf(c)[i], defs, fuel).Success?
    ensures var e := Generate(ItemsOf(c)[i], defs, fuel).value;
            var entry := Members(c, defs, fuel).value[i];
            && Head(entry) == Head(e)
            && Links(entry) == Links(e) + (if ItemKey(i) in c.required then [Link("required", [])] else [])
  {
    MemberListShape(c, defs, fuel);
  }

  /** Same for a property: `key: expr`, with `.required()` last exactly when the key is listed. */
  lemma PropertyRequiredOutermost(c: Node, defs: Defs, fuel: nat, k: nat)
    requires Members(c, defs, fuel).Success? && k < |c.properties|
    ensures Generate(c.properties[k].1, defs, fuel).Success?
    ensures var e := Generate(c.properties[k].1, defs, fuel).value;
            var entry := Members(c, defs, fuel).value[|ItemsOf(c)| + k];
            && entry.Assign? && entry.key == c.properties[k].0
            && Head(entry.init) == Head(e)
            && Links(entry.init) == Links(e) + (if c.properties[k].0 in c.required then [Link("required", [])] else [])
  {
    MemberListShape(c, defs, fuel);
  }

  /** A lone `items` node behaves exactly like a one-element `items` array. */
  lemma SingleItemIsOneElementArray(c: Node, item: Node, defs: Defs, fuel: nat)
    ensures Members(c.(items := Single(item)), defs, fuel) == Members(c.(items := Many([item])), defs, fuel)
  {
    MembersCongruent(c.(items := Single(item)), c.(items := Many([item])), defs, fuel);
  }

  // ---------------------------------------------------------------------
  // Fuel: a result that is not a fuel failure is the result for any
  // larger fuel as well, so the bound only decides how deep `$ref` chains
  // may nest, never what a successful generation produces.

  lemma {:induction false} GenerateFuelMonotone(v: Node, defs: Defs, f: nat, g: nat)
    requires f <= g && !Exhausted(Generate(v, defs, f))
    ensures Generate(v, defs, g) == Generate(v, defs, f)
    decreases f, v, 3, 0
  {
    if v.ref != "" {
      var name := RefName(v.ref);
      if name in defs && f > 0 {
        GenerateFuelMonotone(defs[name], defs, f - 1, g - 1);
      }
    } else {
      DispatchFuelMonotone(v, defs, f, g);
    }
  }

  lemma {:induction false} DispatchFuelMonotone(v: Node, defs: Defs, f: nat, g: nat)
    requires f <= g && !Exhausted(Dispatch(v, defs, f))
    ensures Dispatch(v, defs, g) == Dispatch(v, defs, f)
    decreases f, v, 2, 0
  {
    var k := KindOf(SelectedType(v.typ));
    if k == ObjectKind || k == ArrayKind {
      MembersFuelMonotone(v, defs, f, g);
    }
  }

  lemma {:induction false} MembersFuelMonotone(c: Node, defs: Defs, f: nat, g: nat)
    requires f <= g && !Exhausted(Members(c, defs, f))
    ensures Members(c, defs, g) == Members(c, defs, f)
    decreases f, c, 1, 0
  {
    ItemEntriesFuelMonotone(c, defs, f, g, |ItemsOf(c)|);
    if ItemEntries(c, defs, f, |ItemsOf(c)|).Success? {
      PropEntriesFuelMonotone(c, defs, f, g, |c.properties|);
    }
  }

  lemma {:induction false} ItemEntriesFuelMonotone(c: Node, defs: Defs, f: nat, g: nat, n: nat)
    requires n <= |ItemsOf(c)|
    requires f <= g && !Exhausted(ItemEntries(c, defs, f, n))
    ensures ItemEntries(c, defs, g, n) == ItemEntries(c, defs, f, n)
    decreases f, c, 0, n
  {
    if n > 0 {
      ItemEntriesFuelMonotone(c, defs, f, g, n - 1);
      if ItemEntries(c, defs, f, n - 1).Success? {
        GenerateFuelMonotone(ItemsOf(c)[n - 1], defs, f, g);
      }
    }
  }

  lemma {:induction false} PropEntriesFuelMonotone(c: Node, defs: Defs, f: nat, g: nat, n: nat)
    requires n <= |c.properties|
    requires f <= g && !Exhausted(PropEntries(c, defs, f, n))
    ensures PropEntries(c, defs, g, n) == PropEntries(c, defs, f, n)
    decreases f, c, 0, n
  {
    if n > 0 {
      PropEntriesFuelMonotone(c, defs, f, g, n - 1);
      if PropEntries(c, defs, f, n - 1).Success? {
        PropertySmaller(c, n - 1);
        GenerateFuelMonotone(c.properties[n - 1].1, defs, f, g);
      }
    }
  }

  /** A definition that refers to itself fails for every fuel: the generator would recurse forever. */
  lemma {:induction false} SelfReferenceNeverResolves(name: string, defs: Defs, fuel: nat)
    requires name in defs && defs[name].ref == DefinitionsPrefix + name
    ensures Generate(defs[name], defs, fuel) == Failure(RefDepthExceeded)
    decreases fuel
  {
    RefNameOfPrefixed(name);
    if fuel > 0 {
      SelfReferenceNeverResolves(name, defs, fuel - 1);
    }
  }

  // ---------------------------------------------------------------------
  // Reference resolution.

  /**
    A node with a `$ref` yields exactly what the named definition yields
    (one fuel unit spent on the jump); a name missing from the table is a
    failure naming it.
   */
  lemma RefResolution(v: Node, defs: Defs, fuel: nat)
    requires v.ref != ""
    ensures RefName(v.ref) !in defs ==> Generate(v, defs, fuel) == Failure(Unresolved(RefName(v.ref)))
    ensures RefName(v.ref) in defs && fuel > 0 ==>
              Generate(v, defs, fuel) == Generate(defs[RefName(v.ref)], defs, fuel - 1)
    ensures RefName(v.ref) in defs && fuel == 0 ==> Generate(v, defs, fuel) == Failure(RefDepthExceeded)
  {
  }

  /** Everything but the `$ref` of a referring node is ignored: its type, optional flag and constraints. */
  lemma RefIgnoresOwnFields(v: Node, w: Node, defs: Defs, fuel: nat)
    requires v.ref != "" && w.ref == v.ref
    ensures Generate(v, defs, fuel) == Generate(w, defs, fuel)
  {
  }

  /**
    Referring to a definition is the same as writing the definition in
    place: once the inlined node generates without running out of fuel,
    the `$ref` node yields the same result for every larger fuel.
   */
  lemma RefSameAsInlined(name: string, v: Node, defs: Defs, f: nat, g: nat)
    requires name in defs && v.ref == DefinitionsPrefix + name
    requires f < g && !Exhausted(Generate(defs[name], defs, f))
    ensures Generate(v, defs, g) == Generate(defs[name], defs, g)
    ensures Generate(v, defs, g) == Generate(defs[name], defs, f)
  {
    RefNameOfPrefixed(name);
    GenerateFuelMonotone(defs[name], defs, f, g - 1);
    GenerateFuelMonotone(defs[name], defs, f, g);
  }

  // ---------------------------------------------------------------------
  // Type dispatch.

  /**
    A `string` node is `Joi.string()` followed by `.length(n)`, `.min(n)`
    and `.max(n)` in that order, each only when its constraint is truthy,
    and then the optional wrap.
   */
  lemma StringConstraintChain(v: Node, defs: Defs, fuel: nat)
    requires v.ref == "" && SelectedType(v.typ) == Some("string")
    ensures Generate(v, defs, fuel).Success?
    ensures Head(Generate(v, defs, fuel).value) == Ident(JoiName)
    ensures Links(Generate(v, defs, fuel).value)
              == [Link("string", [])]
                 + ConstraintLinks("length", v.length)
                 + ConstraintLinks("min", v.minLength)
                 + ConstraintLinks("max", v.maxLength)
                 + OptionalLinks(v.optional)
  {
    DispatchByName(v, defs, fuel);
  }

  /** Only the first type of a non-empty type array drives the dispatch. */
  lemma MultiTypeFirstWins(v: Node, defs: Defs, fuel: nat)
    requires v.typ.Multi? && |v.typ.names| > 0
    ensures Generate(v, defs, fuel) == Generate(v.(typ := Named(v.typ.names[0])), defs, fuel)
  {
    if v.ref == "" {
      var w := v.(typ := Named(v.typ.names[0]));
      MembersCongruent(v, w, defs, fuel);
      assert Dispatch(v, defs, fuel) == Dispatch(w, defs, fuel);
    }
  }

  /**
    A type that names no branch (an empty type array among them) produces
    no expression: the result is `undefined`, wrapped only if optional.
   */
  lemma UnknownTypeProducesNothing(v: Node, defs: Defs, fuel: nat)
    requires v.ref == "" && KindOf(SelectedType(v.typ)) == UnknownKind
    ensures Generate(v, defs, fuel) == Success(WrapOptional(Undefined, v.optional))
  {
  }

  /** An empty type array is one such type. */
  lemma EmptyTypeArrayProducesNothing(v: Node, defs: Defs, fuel: nat)
    requires v.ref == "" && v.typ == Multi([])
    ensures Generate(v, defs, fuel) == Success(WrapOptional(Undefined, v.optional))
  {
    UnknownTypeProducesNothing(v, defs, fuel);
  }

  /**
    An optional node is the same node's expression without the flag, then
    `.allow(null)`, then `.optional()`.
   */
  lemma OptionalWrapping(v: Node, defs: Defs, fuel: nat)
    requires v.ref == "" && v.optional
    ensures var plain := Generate(v.(optional := false), defs, fuel);
            Generate(v, defs, fuel)
              == match plain
                 case Success(e) => Success(Optional(AllowNull(e)))
                 case Failure(err) => Failure(err)
    ensures Generate(v, defs, fuel).Success? ==>
              var e := Generate(v.(optional := false), defs, fuel).value;
              Links(Generate(v, defs, fuel).value) == Links(e) + OptionalLinks(true)
  {
    var w := v.(optional := false);
    MembersCongruent(v, w, defs, fuel);
    assert Dispatch(v, defs, fuel) == Dispatch(w, defs, fuel);
  }

  /**
    A `null` node is `Joi.valid(null).required()`, whatever its optional
    flag; an optional one additionally gets `.allow(null).optional()`.
   */
  lemma NullTypeAlwaysRequired(v: Node, defs: Defs, fuel: nat)
    requires v.ref == "" && SelectedType(v.typ) == Some("null")
    ensures Generate(v, defs, fuel) == Success(WrapOptional(NullProperty(), v.optional))
    ensures Links(Generate(v, defs, fuel).value)
              == [Link("valid", [NullLit]), Link("required", [])] + OptionalLinks(v.optional)
  {
    DispatchByName(v, defs, fuel);
  }

  /**
    An `object` or `document` node is `Joi.object().keys({ members })` and
    an `array` node is `Joi.array().items(members...)`, where `members` is
    the node's own member list; a failing member fails the node.
   */
  lemma CompositeExpressions(v: Node, defs: Defs, fuel: nat)
    requires v.ref == ""
    ensures var t := SelectedType(v.typ);
            t == Some("object") || t == Some("document") ==>
              Generate(v, defs, fuel)
                == match Members(v, defs, fuel)
                   case Success(ms) => Success(WrapOptional(ObjectProperty(ms), v.optional))
                   case Failure(err) => Failure(err)
    ensures SelectedType(v.typ) == Some("array") ==>
              Generate(v, defs, fuel)
                == match Members(v, defs, fuel)
                   case Success(ms) => Success(WrapOptional(ArrayProperty(ms), v.optional))
                   case Failure(err) => Failure(err)
  {
    DispatchByName(v, defs, fuel);
  }

  // ---------------------------------------------------------------------
  // The root statement.

  /**
    The root is always `const schema = Joi.object().keys({ members })`
    over the root's own member list; a failing member fails the whole
    statement.
   */
  lemma RootStatementShape(root: Node, defs: Defs, fuel: nat)
    ensures SchemaStatement(root, defs, fuel)
              == match Members(root, defs, fuel)
                 case Success(ms) => Success(ConstDecl("schema", ObjectProperty(ms)))
                 case Failure(err) => Failure(err)
  {
  }

  /** The root's own type, `$ref` and optional flag are never looked at. */
  lemma RootIgnoresOwnShape(root: Node, t: TypeSpec, ref: string, optional: bool, defs: Defs, fuel: nat)
    ensures SchemaStatement(root, defs, fuel)
              == SchemaStatement(root.(typ := t, ref := ref, optional := optional), defs, fuel)
  {
    MembersCongruent(root, root.(typ := t, ref := ref, optional := optional), defs, fuel);
  }

  /**
    For a plain (not referring, not optional) object root, the statement
    binds `schema` to exactly the expression the root node generates.
   */
  lemma RootAgreesWithObjectNode(root: Node, defs: Defs, fuel: nat)
    requires root.ref == "" && !root.optional && SelectedType(root.typ) == Some("object")
    ensures SchemaStatement(root, defs, fuel)
              == match Generate(root, defs, fuel)
                 case Success(e) => Success(ConstDecl("schema", e))
                 case Failure(err) => Failure(err)
  {
    DispatchByName(root, defs, fuel);
  }
}
