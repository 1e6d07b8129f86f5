# Joi schema generator, modelled in Dafny

The forward-engineering helper of the Qwin/Joi plugin turns a
JSON-Schema-like document into a TypeScript syntax tree for the statement
`const schema = Joi.object().keys({ ... });`, where every member is a fluent
Joi call chain such as `Joi.string().min(2).required()`. This project models
that generator, `forward_engineering/helpers/joiHelper.js`:

- `ast.dfy` (module `JoiAst`): the expression trees the generator builds
  (`Expr`, `Stmt`), and the leaf builders (`Joi.string()`, `Joi.object().keys(...)`, ...)
  and one-call wrappers (`.required()`, `.optional()`, `.allow(null)`,
  `.min(n)`, `.max(n)`, `.length(n)`). A chain is read back as a head expression
  plus a list of calls (`Head`, `Links`), and `Rebuild` inverts that reading.
- `schema.dfy` (module `Schema`): schema nodes, the definitions table, and
  the readings the generator makes of a node. These are which type drives the
  dispatch, which definition a `$ref` names, and how an item index is spelled
  when it is looked up in `required`.
- `semantics.dfy` (module `JoiSemantics`): what the generator computes, as
  functions. `Generate` is one node's expression, `Members` a container's
  member list, and `SchemaStatement` the root statement.
- `joi_helper.dfy` (module `JoiHelper`): the generator's own step-by-step
  form. `generateExpression` reassigns its local `expression`, and
  `generateJoiTypes` pushes into a local list in two loops. Each method is
  proved to compute exactly the function of `JoiSemantics`.
- `properties.dfy` (module `JoiProperties`): what the generator promises,
  proved for all inputs.
- `scenarios.dfy` (module `JoiScenarios`): worked examples on concrete schemas.

Modelling choices:

- A JavaScript exception becomes a `Failure`. A `$ref` whose name is missing
  from the definitions makes the recursive call read `$ref` of `undefined`,
  which throws. That failure is `Unresolved(name)`.
- A `$ref` jump does not make the node smaller, and cyclic definitions recurse
  without end. So every function carries `fuel`, the number of nested `$ref`
  jumps still allowed. Running out is `RefDepthExceeded`. The name lookup is
  checked before the fuel. A result that is not `RefDepthExceeded` stays the
  same under any larger fuel (`GenerateFuelMonotone`).
- JavaScript truthiness is made explicit:
  - an absent or empty `$ref` is `ref == ""`;
  - an absent or zero `length`, `minLength` or `maxLength` is `0`;
  - an absent `required` is the empty list.
- An unknown type leaves `expression` as `undefined`, and the code still
  hands it to the wrappers. The model keeps that value as the `Undefined`
  leaf. It states only which calls the code builds around it.
- `'...'.replace('#model/definitions/', '')` removes the FIRST occurrence of
  the prefix wherever it stands, not only a leading one. `RefName` models
  exactly that.
- `for (const index in itemsArray)` enumerates indices as decimal strings.
  `required.includes(index)` therefore looks for `"0"`, `"1"`, ...
  (`ItemKey`).

Two consequences of the code that are easy to miss:

- The root entry point `generateJoiObjects` calls `generateJoiTypes` directly
  (joiHelper.js:226-227), so the root's own `type`, `$ref` and `optional` are
  never read. A root `{type: "array", items: ...}` becomes an object over its
  items, not an array builder. A root `{$ref: ...}` becomes an object with no
  keys, not the referenced definition. Nested, a node of either kind gets the
  array builder or the inlined definition (`NumbersExpression`,
  `AddressByReference`).
- An unresolved `$ref` makes the recursive call throw at joiHelper.js:136, so
  the model fails with `Unresolved`.

## Model

| member | source | states |
|---|---|---|
| JoiAst.RebuildChain | forward_engineering/helpers/joiHelper.js:84-90 | every expression is its chain head with its calls re-applied, and that head is never itself a call |
| JoiAst.ChainOfRebuild | forward_engineering/helpers/joiHelper.js:84-90 | applying calls to a head and reading the chain back gives the same head and the same calls |
| JoiAst.Invoke | forward_engineering/helpers/joiHelper.js:85-89 | one `.name(args)` call keeps the chain head and appends exactly one call |
| JoiAst.JoiBuilder | forward_engineering/helpers/joiHelper.js:21-27 | `Joi.x()` is the head `Joi` with the single call `x()` |
| JoiAst.ObjectProperty | forward_engineering/helpers/joiHelper.js:3-19 | `Joi.object().keys({members})`: head `Joi`, calls `object()` then `keys` with one object literal holding the members |
| JoiAst.DateProperty | forward_engineering/helpers/joiHelper.js:21-27 | `Joi.date()`: head `Joi`, the single call `date()` |
| JoiAst.BoolProperty | forward_engineering/helpers/joiHelper.js:29-35 | `Joi.bool()`: head `Joi`, the single call `bool()` |
| JoiAst.StringProperty | forward_engineering/helpers/joiHelper.js:37-43 | `Joi.string()`: head `Joi`, the single call `string()` |
| JoiAst.NumberProperty | forward_engineering/helpers/joiHelper.js:45-51 | `Joi.number()`: head `Joi`, the single call `number()` |
| JoiAst.NullProperty | forward_engineering/helpers/joiHelper.js:53-63 | `Joi.valid(null).required()`: calls `valid(null)` then `required()` |
| JoiAst.ArrayProperty | forward_engineering/helpers/joiHelper.js:65-81 | `Joi.array().items(...)`: calls `array()` then `items` with the members as its arguments, not as one list |
| JoiAst.Required | forward_engineering/helpers/joiHelper.js:83-90 | same head, calls extended by `required()` at the outside |
| JoiAst.Optional | forward_engineering/helpers/joiHelper.js:92-98 | same head, calls extended by `optional()` at the outside |
| JoiAst.AllowNull | forward_engineering/helpers/joiHelper.js:100-106 | same head, calls extended by `allow(null)` at the outside |
| JoiAst.StringMinLength | forward_engineering/helpers/joiHelper.js:108-114 | same head, calls extended by `min(n)` carrying the number n |
| JoiAst.StringMaxLength | forward_engineering/helpers/joiHelper.js:116-122 | same head, calls extended by `max(n)` carrying the number n |
| JoiAst.StringLength | forward_engineering/helpers/joiHelper.js:124-130 | same head, calls extended by `length(n)` carrying the number n |
| Schema.SelectedType | forward_engineering/helpers/joiHelper.js:142-147 | a non-empty type array selects its first name, a single name selects itself, and nothing is selected exactly when the type is absent or an empty array |
| Schema.KindOf | forward_engineering/helpers/joiHelper.js:149-172 | each dispatch branch is taken exactly for the names it tests (`numeric`/`number`, `bool`/`boolean`, `object`/`document`, ...) |
| Schema.IndexOf | forward_engineering/helpers/joiHelper.js:137 | the result is the first position at or after the start where the pattern occurs, and none means it occurs nowhere |
| Schema.RefName | forward_engineering/helpers/joiHelper.js:137 | a string without the prefix names itself; otherwise the name is the string with its first occurrence of the prefix cut out |
| Schema.RefNameOfPrefixed | forward_engineering/helpers/joiHelper.js:137 | `#model/definitions/N` names the definition N |
| Schema.NatToString | forward_engineering/helpers/joiHelper.js:191 | an index's key is a non-empty string of decimal digits, and it starts with `0` only when it is exactly `"0"` (the index 0) |
| Schema.ParseNatToString | forward_engineering/helpers/joiHelper.js:191 | reading the decimal key back gives the index |
| Schema.ItemKey | forward_engineering/helpers/joiHelper.js:191-199 | the key an item is looked up by in `required` is all digits, has no leading zero unless it is `"0"`, and spells the item's index: the exact string `for...in` yields |
| Schema.ItemKeyInjective | forward_engineering/helpers/joiHelper.js:191-199 | two items have the same key exactly when they are the same index, so listing one index never marks another |
| Schema.ItemsOf | forward_engineering/helpers/joiHelper.js:186-189 | absent items are none, a single item is a one-element list, an items array is itself, and every item is smaller than its container |
| Schema.PropertySmaller | forward_engineering/helpers/joiHelper.js:208-209 | every property's node is part of its container |
| JoiSemantics.WrapOptional | forward_engineering/helpers/joiHelper.js:174-176 | an optional node's chain gets `allow(null)` and then `optional()` at the outside; a non-optional one is unchanged |
| JoiSemantics.WrapRequired | forward_engineering/helpers/joiHelper.js:196-202 | a listed member's chain gets `required()` at the outside; an unlisted one is unchanged |
| JoiSemantics.StringChain | forward_engineering/helpers/joiHelper.js:149-159 | `Joi.string()` followed by `length`, `min`, `max` in that order, each only when its field is non-zero |
| JoiSemantics.Generate | forward_engineering/helpers/joiHelper.js:132-179 | the expression for one node; specified by `GenerateExpression` (the code's own steps), `RefResolution`, `RefSameAsInlined`, `RefIgnoresOwnFields`, `MultiTypeFirstWins`, `StringConstraintChain`, `OptionalWrapping`, `NullTypeAlwaysRequired`, `CompositeExpressions`, `UnknownTypeProducesNothing` and `GenerateFuelMonotone` |
| JoiSemantics.Dispatch | forward_engineering/helpers/joiHelper.js:149-172 | the type dispatch before the optional wrap; specified by `DispatchByName` and `DispatchFuelMonotone` |
| JoiSemantics.Members | forward_engineering/helpers/joiHelper.js:181-224 | the member list of a container; specified by `GenerateJoiTypes`, `MemberListShape`, `MembersConcat`, `MembersCongruent`, `SingleItemIsOneElementArray` and `MembersFuelMonotone` |
| JoiSemantics.MembersConcat | forward_engineering/helpers/joiHelper.js:182-223 | a successful member list is the items' entries followed by the properties' entries, pushed into the one list |
| JoiSemantics.ItemEntries | forward_engineering/helpers/joiHelper.js:191-205 | a successful list of the first n items has exactly n entries |
| JoiSemantics.PropEntries | forward_engineering/helpers/joiHelper.js:208-221 | a successful list of the first n properties has exactly n entries |
| JoiSemantics.DispatchByName | forward_engineering/helpers/joiHelper.js:149-172 | the dispatch table: which builder each type name yields, that composites fail when a member fails, and that an unknown name yields `undefined` |
| JoiSemantics.ItemEntriesStep | forward_engineering/helpers/joiHelper.js:191-205 | one more loop turn over the items appends the item's (possibly required-wrapped) expression, or fails with the item's error |
| JoiSemantics.PropEntriesStep | forward_engineering/helpers/joiHelper.js:208-221 | one more loop turn over the properties appends `key: expr`, or fails with the property's error |
| JoiSemantics.ItemFailureSticks | forward_engineering/helpers/joiHelper.js:191-205 | once an item fails, the rest of the loop cannot change the outcome: the first failure is the result |
| JoiSemantics.PropFailureSticks | forward_engineering/helpers/joiHelper.js:208-221 | once a property fails, the first failure is the result |
| JoiSemantics.SchemaStatement | forward_engineering/helpers/joiHelper.js:226-257 | a successful root is always `const schema = Joi.object().keys(...)`, whatever the root's own type; further specified by `RootStatementShape`, `RootIgnoresOwnShape` and `RootAgreesWithObjectNode` |
| JoiHelper.GenerateExpression | forward_engineering/helpers/joiHelper.js:132-179 | the step-by-step expression building computes exactly `Generate`: `$ref` jump or failure, first type of an array, type dispatch, optional wrap |
| JoiHelper.StringExpression | forward_engineering/helpers/joiHelper.js:149-159 | reassigning the expression through the three optional constraints yields exactly `StringChain` |
| JoiHelper.GenerateJoiTypes | forward_engineering/helpers/joiHelper.js:181-224 | the two pushing loops compute exactly `Members`: the items' entries followed by the properties' entries |
| JoiHelper.ItemList | forward_engineering/helpers/joiHelper.js:186-205 | the items loop computes exactly the entries of all items, or the first item failure |
| JoiHelper.PropertyList | forward_engineering/helpers/joiHelper.js:208-221 | the properties loop computes exactly the entries of all properties, or the first property failure |
| JoiHelper.GenerateJoiObjects | forward_engineering/helpers/joiHelper.js:226-257 | the root statement is exactly `SchemaStatement` |
| JoiProperties.ItemEntriesCongruent | forward_engineering/helpers/joiHelper.js:191-205 | the items loop reads only the items and `required` of its container |
| JoiProperties.PropEntriesCongruent | forward_engineering/helpers/joiHelper.js:208-221 | the properties loop reads only the properties and `required` of its container |
| JoiProperties.MembersCongruent | forward_engineering/helpers/joiHelper.js:181-224 | a member list depends only on the items, properties and `required` of its container, never on its type, `$ref` or flags |
| JoiProperties.ItemEntriesSucceed | forward_engineering/helpers/joiHelper.js:191-205 | the items loop succeeds exactly when every item's expression does |
| JoiProperties.ItemEntriesValues | forward_engineering/helpers/joiHelper.js:191-205 | entry i is item i's expression, with `required()` added exactly when i's decimal key is listed |
| JoiProperties.ItemEntryAt | forward_engineering/helpers/joiHelper.js:191-205 | for a single index: item i succeeded and its entry is its expression, with `required()` exactly when i's decimal key is listed |
| JoiProperties.PropEntriesSucceed | forward_engineering/helpers/joiHelper.js:208-221 | the properties loop succeeds exactly when every property's expression does |
| JoiProperties.PropEntriesValues | forward_engineering/helpers/joiHelper.js:208-221 | entry k is `key_k: expr_k`, with `required()` added exactly when key_k is listed |
| JoiProperties.PropEntryAt | forward_engineering/helpers/joiHelper.js:208-221 | for a single property: it succeeded and its entry is `key: expr`, with `required()` exactly when the key is listed |
| JoiProperties.MemberListShape | forward_engineering/helpers/joiHelper.js:181-224 | the member list succeeds iff every member does; it then has \|items\| + \|properties\| entries, items first in order, then `key: expr` in property order, each required-wrapped exactly when listed |
| JoiProperties.MemberItemValues | forward_engineering/helpers/joiHelper.js:191-205 | a member list has \|items\| + \|properties\| entries, and its first \|items\| entries are the items' entries in item order |
| JoiProperties.MemberPropertyValues | forward_engineering/helpers/joiHelper.js:208-221 | the entries after the items are the properties' `key: expr` entries in property order |
| JoiProperties.ItemRequiredOutermost | forward_engineering/helpers/joiHelper.js:196-202 | an item's entry is the item's own chain with `required()` as the one extra, outermost call exactly when listed, outside any optional wrap |
| JoiProperties.PropertyRequiredOutermost | forward_engineering/helpers/joiHelper.js:212-220 | a property's entry is `key: chain`, with `required()` as the one extra, outermost call exactly when the key is listed |
| JoiProperties.SingleItemIsOneElementArray | forward_engineering/helpers/joiHelper.js:186-189 | a lone `items` node gives the same member list as a one-element `items` array |
| JoiProperties.GenerateFuelMonotone | forward_engineering/helpers/joiHelper.js:136-140 | a result that is not a depth failure is the same for every larger fuel, so the bound never changes a successful expression |
| JoiProperties.DispatchFuelMonotone | forward_engineering/helpers/joiHelper.js:149-172 | the same for the type dispatch |
| JoiProperties.MembersFuelMonotone | forward_engineering/helpers/joiHelper.js:181-224 | the same for a member list |
| JoiProperties.ItemEntriesFuelMonotone | forward_engineering/helpers/joiHelper.js:191-205 | the same for the items loop |
| JoiProperties.PropEntriesFuelMonotone | forward_engineering/helpers/joiHelper.js:208-221 | the same for the properties loop |
| JoiProperties.SelfReferenceNeverResolves | forward_engineering/helpers/joiHelper.js:136-140 | a definition that refers to itself, in any definitions table, fails for every fuel, as the code recurses without end |
| JoiProperties.RefResolution | forward_engineering/helpers/joiHelper.js:136-140 | a `$ref` node fails with the missing name, yields its definition's expression, or runs out of depth, exactly by those three cases |
| JoiProperties.RefIgnoresOwnFields | forward_engineering/helpers/joiHelper.js:136-140 | a `$ref` node's type, constraints, optional flag and members are ignored |
| JoiProperties.RefSameAsInlined | forward_engineering/helpers/joiHelper.js:136-140 | referring to a definition yields exactly the expression of inlining it, given enough depth |
| JoiProperties.StringConstraintChain | forward_engineering/helpers/joiHelper.js:149-159 | a string node's chain is `string()`, then `length`, `min`, `max` for each non-zero field in that order, then the optional calls |
| JoiProperties.MultiTypeFirstWins | forward_engineering/helpers/joiHelper.js:142-147 | a node with a non-empty type array yields exactly what the same node with its first type alone yields |
| JoiProperties.UnknownTypeProducesNothing | forward_engineering/helpers/joiHelper.js:149-176 | a type name no branch tests yields `undefined`, wrapped only by the optional calls |
| JoiProperties.EmptyTypeArrayProducesNothing | forward_engineering/helpers/joiHelper.js:143-147 | an empty type array is such a type |
| JoiProperties.OptionalWrapping | forward_engineering/helpers/joiHelper.js:174-176 | an optional node is the non-optional node's expression with `allow(null)` inside and `optional()` outside |
| JoiProperties.NullTypeAlwaysRequired | forward_engineering/helpers/joiHelper.js:170-171 | a null node is `Joi.valid(null).required()` whatever its optional flag; optional adds the nullable calls on top |
| JoiProperties.CompositeExpressions | forward_engineering/helpers/joiHelper.js:166-169 | an object or document node is `Joi.object().keys({members})`, an array node `Joi.array().items(members...)`, and each fails if a member fails |
| JoiProperties.RootStatementShape | forward_engineering/helpers/joiHelper.js:226-257 | the root is always `const schema = Joi.object().keys({members})` over its own member list, or that list's failure |
| JoiProperties.RootIgnoresOwnShape | forward_engineering/helpers/joiHelper.js:226-227 | the root statement does not depend on the root's type, `$ref` or optional flag |
| JoiProperties.RootAgreesWithObjectNode | forward_engineering/helpers/joiHelper.js:226-257 | for a plain object root, the statement binds `schema` to exactly the root node's own expression |
| JoiScenarios.PersonStatement | forward_engineering/helpers/joiHelper.js:149-159 | `{type: object, properties: {name: {type: string, minLength: 2}}, required: [name]}` becomes `const schema = Joi.object().keys({name: Joi.string().min(2).required()})` |
| JoiScenarios.NumbersExpression | forward_engineering/helpers/joiHelper.js:168-169 | a nested `{type: array, items: {type: number}}` is `Joi.array().items(Joi.number())`, while as the root it is an object over the same member |
| JoiScenarios.AddressExpression | forward_engineering/helpers/joiHelper.js:166-167 | the Address definition is `Joi.object().keys({city: Joi.string()})` |
| JoiScenarios.AddressByReference | forward_engineering/helpers/joiHelper.js:136-140 | a nested reference to Address yields the inlined definition's expression, while a root reference yields an object with no keys |
| JoiScenarios.RefNameRemovesFirstOccurrence | forward_engineering/helpers/joiHelper.js:137 | `Foo#model/definitions/Bar` names the definition `FooBar` |
| JoiScenarios.ItemKeysAreDecimal | forward_engineering/helpers/joiHelper.js:191 | items 0, 7 and 12 are looked up as `"0"`, `"7"` and `"12"` |
| JoiScenarios.FirstItemRequired | forward_engineering/helpers/joiHelper.js:196-202 | listing `"0"` in `required` marks the first array item required |

## Left out

- `forward_engineering/generateScript.js` is not part of this model. It holds the host plumbing: parsing the input documents, printing the tree as text, logging, and the error callback delivered after a timer.
- `esbuild.package.js` is not part of this model. It is packaging tooling.
- The TypeScript `factory` is replaced by the `Expr` datatype. Nothing is stated about printing, about whether a property key is valid source text, or about what the factory does with an `undefined` argument. The same goes for the object literal: the nested builder calls `createObjectLiteral` and the root calls `createObjectLiteralExpression`, and both are modelled as one object-literal node.
- `for...in` over `properties` follows the object's key order, which puts integer-like keys first. The model takes `properties` as a sequence already in that order, and it has no duplicate-key or prototype-chain lookups (`properties["constructor"]`).
- A string-valued `required` is left out. `includes` would search it as a substring; the model takes `required` as a list of strings.
- `length`, `minLength` and `maxLength` are integers in the model. Fractional values, `NaN` and non-numeric truthy values are left out, as is the `toString` spelling of the numeric literal.
- A definitions document without `properties` makes the lookup throw for any `$ref`. The model takes the table to be present, possibly empty.
- GenerateExpression: cyclic `$ref` chains make the code recurse until the JavaScript stack overflows. The model stops after `fuel` nested jumps with `RefDepthExceeded`, and it does not model the stack size.
