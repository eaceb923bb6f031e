# goquery filter compiler, modelled in Dafny

goquery turns a JSON-like filter into a SQL `SELECT` through the squirrel
builder. A filter is made of nested Go maps and slices. Its keys are
either column names or operator symbols (`$and`, `$or`, `$not`, `$eq`,
`$notEq`, `$gt`, `$gte`, `$lt`, `$lte`). This project models:

- the operator registry (`New`, `toOperator`, `isOperator`);
- the first, flat compiler on `Builder` (`parseWhere` … `parseVal`,
  `wrapOp`, `Build`);
- the second compiler on `builderContext`: it builds a tree with one node
  per map and per list element, combines a map's entries with the
  context's relation, and qualifies every column with the current table;
- the naming helpers (`quote`, `toFullName`, `buildFrom`, `attrBuild`);
- the join builder `addJoins`;
- the order-insensitive tree comparison the tests use (`setCompare.go`).

Layout:

- `types.dfy` (module `Types`):
  - the dynamic input value `Value`. A Go map is a sequence of entries in
    one of its iteration orders. A Go array or slice is `ListV`.
  - the predicate tree `Pred`: a one-entry comparison `Leaf`, or an
    `And`/`Or` node;
  - the `Select` record, the error kinds and `Result`.
- `goquery.dfy` (module `GoQuery`): the registry and the flat compiler.
- `naming.dfy` (module `Naming`): the context `Ctx` and quoting.
- `builder_context.dfy` (module `BuilderContext`): the nested compiler.
- `joins.dfy`, `attributes.dfy`, `setcompare.dfy`: one Go file each.

Every Go function with a loop or a call chain of parsers becomes a `method`.
The parser methods, `WrapOp`, `AddJoins` and the `setCompare` scans are each proved
equal to a specification function of the same shape (`ParseWhere` /
`WhereTree`, `ParseOp` / `OpConds`, `AddJoins` / `Joined`, `ScanSetCompare`
/ `SetCompare`, …). `New`, `IsOperator`, `CopyInto`, `Invert`, `Build` and
`AttrBuild` instead state their results directly in their `ensures`. The properties are lemmas about
the specification functions:

- the shape of each result and its error cases;
- flatness of the first compiler's output;
- table qualification of every column in the second compiler;
- independence from the iteration order of the outermost map, up to
  `setCompare`;
- the listed test cases, one lemma each.

`inherit` is a copy of a Go struct. It is modelled as the identity function
`Naming.Inherit`, which the nested compilations and `addJoins` call.
`builderContext.toOperator` reads the same reverse map as `Builder.toOperator`,
so `GoQuery.ToOperator` models both.

Where the code departs from what its names and tests suggest, the model
follows the code:

- `New` never fails. It does not reject two operators mapped to one symbol;
  the reverse map then keeps one of them.
- In both compilers `$or` builds an Or from the list, but the caller
  splices its children into the enclosing `And`, so the disjunction is lost
  (`GoQuery.OrCompiledAsAnd`, `BuilderContext.OrGroupingLost`).
- A condition's map level is combined with the context's relation. Only
  list elements reset it to `$and`.
- In the nested compiler one comparison may be written field-outer,
  `{a: {"$gt": 1}}`, or operator-outer, `{"$gt": {a: 1}}`, with the same
  result (`BuilderContext.NestingOrdersAgree`). Once an operator groups
  several fields the two forms differ: `{"$gt": {a: 1, b: 2}}` gives one
  entry tree holding both comparisons, `{a: {"$gt": 1}, b: {"$gt": 2}}`
  gives two entry trees, and `setCompare` tells them apart
  (`BuilderContext.GroupedOperatorDiffers`). The flat compiler gives one
  list for both (`GoQuery.GroupedOperatorFlattens`).
- An include with both a `where` and a through table is skipped entirely:
  neither its join clauses nor its condition are added, and no error is
  reported.

## Model

| member | source | states |
|---|---|---|
| GoQuery.DefaultsAreSelfNamed | goquery.go:35-45 | every default operator is spelled as its own symbol, and the default reverse map inverts it |
| GoQuery.CopyInto | goquery.go:60-65 | copying one map into another leaves the union with the source's entries winning |
| GoQuery.Invert | goquery.go:66-69 | the reverse map has exactly the symbols as keys, and each maps back to an operator spelled by it |
| GoQuery.InvertInjective | goquery.go:66-69 | when no two operators share a symbol, the reverse map returns each operator from its symbol |
| GoQuery.DefaultInversion | goquery.go:58-75 | with no overrides, the registry is exactly the default one |
| GoQuery.New | goquery.go:58-75 | never fails; operators are the defaults overridden by the configuration; the reverse map is consistent with them; no overrides gives the default registry |
| GoQuery.ToOperator | goquery.go:99-106 | succeeds exactly on known symbols, with the symbol's operator; otherwise "not operator: <symbol>" |
| GoQuery.ToOperatorInvertsSymbol | goquery.go:99-106 | with an injective registry, looking up an operator's symbol gives the operator back |
| GoQuery.DefaultToOperator | goquery.go:35-45 | in the default registry the symbols are exactly the nine operator names, each naming itself |
| GoQuery.IsOperator | goquery.go:90-97 | true exactly when some operator is spelled by the string |
| GoQuery.IsOperatorAgreesWithToOperator | goquery.go:90-106 | `isOperator` and `toOperator` accept the same strings |
| GoQuery.Leaves | goquery.go:274-279 | one comparison of the given kind per map entry, in order |
| GoQuery.Wrapped | goquery.go:270-331 | the six comparison operators give one leaf per entry of their kind; any other operator gives "invalid op" |
| GoQuery.WrapOp | goquery.go:270-331 | the loop builds exactly `Wrapped` |
| GoQuery.ParseWhere | goquery.go:108-143 | the loop over the map computes `WhereList` |
| GoQuery.ParseOp | goquery.go:145-177 | `$and`/`$or` compile the list, `$not` fails, the rest go through `parseKeyValuePair` |
| GoQuery.ParseMultiple | goquery.go:179-216 | the loop over the list computes `MultipleList`; a non-list is "invalid operand" |
| GoQuery.ParseElem | goquery.go:218-242 | a map with string keys is compiled by `parseWhere`; other keys and non-maps fail |
| GoQuery.ParseKeyValuePair | goquery.go:244-268 | a map with string keys is wrapped by the operator; otherwise "key must be string" or "invalid operand" |
| GoQuery.ParseVal | goquery.go:333-371 | the loop over a field's operator map computes `ValList`; a non-map value is "invalid operand" |
| GoQuery.Build | goquery.go:78-88 | a compile error is returned as is; otherwise `SELECT *` from the filter's table with each condition added; every condition is a single comparison |
| GoQuery.ThenFlat | goquery.go:128 | splicing flat condition lists keeps them flat |
| GoQuery.WhereListFlat | goquery.go:108-143 | the flat compiler only ever produces single comparisons |
| GoQuery.OpListFlat | goquery.go:145-177 | the same, for an operator's operand |
| GoQuery.MultipleListFlat | goquery.go:179-216 | the same, for a list of maps |
| GoQuery.ItemsListFlat | goquery.go:187-195 | the same, for the list elements |
| GoQuery.ElemListFlat | goquery.go:218-242 | the same, for one list element |
| GoQuery.ValListFlat | goquery.go:333-371 | the same, for a field's value |
| GoQuery.ValEntryListFlat | goquery.go:340-363 | the same, for a field's operator entries |
| GoQuery.OrCompiledAsAnd | goquery.go:155-162 | `$or` compiles to the same condition list as `$and` |
| GoQuery.ScalarFields | goquery.go:135-139 | a map whose values are neither maps nor structs gives one equality per entry, in order, whatever the keys |
| GoQuery.WithoutStructs | goquery.go:131-134 | the map's entries without the struct-valued ones: no struct left, every other entry kept |
| GoQuery.StructsDropped | goquery.go:131-134 | a map compiles exactly like the map with its struct entries removed, wherever they sit |
| GoQuery.OperatorKeyOverList | goquery.go:135-139 | an operator symbol over a list is an equality on a column named by the symbol, not an operator |
| GoQuery.ValEntryListNeedsOperators | goquery.go:340-362 | a field's operator map compiles only if every key is a string and a registered symbol; a first non-string key gives "invalid key type", a first unknown symbol "not operator: <symbol>" |
| GoQuery.SingleComparison | goquery.go:349-352 | an operator on a one-entry map gives that single comparison |
| GoQuery.FieldOperators | goquery.go:333-365 | a field's map of comparison symbols gives one comparison of the field per symbol, in order |
| GoQuery.NestingOrdersAgree | goquery.go:108-143 | `{field: {op: v}}` and `{op: {field: v}}` compile to the same single comparison of the field |
| GoQuery.EqualityShorthand | goquery.go:135-139 | a plain value `{field: v}` compiles exactly like `{"$eq": {field: v}}` |
| GoQuery.GroupedOperatorFlattens | goquery.go:108-143 | an operator over two fields compiles to the same list as the two field-outer entries, one comparison per field |
| GoQuery.SimpleValueEqualCase | goquery_test.go:26-46 | the "simple value equal" case gives its five equalities |
| GoQuery.OperatorOuterCase | goquery_test.go:47-62 | the `op: {key: value}` case gives both `>` comparisons |
| GoQuery.FieldOuterCase | goquery_test.go:63-78 | the `key: {op: value}` case gives `a > 1` and `a < 2` |
| GoQuery.AndOrListCase | goquery_test.go:153-188 | `$and` and `$or` over a one-map list both give the two equalities |
| Naming.Inherit | builder_context.go:260-262 | the copy has every field of the original: registry, quote, relation and table |
| Naming.Quote | builder_context.go:247-249 | the name between two copies of the quote string, nothing escaped |
| Naming.ToFullName | full_name.go:7-9 | quoted table, a dot, quoted column; its length and table prefix |
| Naming.UnquotedFullName | full_name.go:7-9 | with no quote string a full name is `table.column` |
| Naming.ColumnReadBack | full_name.go:7-9 | the column can be cut back out of its full name |
| Naming.FullNameInjective | full_name.go:7-9 | distinct columns of one table get distinct full names |
| Naming.FullNameAmbiguous | full_name.go:7-9 | unquoted, `a.b` + `c` and `a` + `b.c` give the same full name |
| Naming.BuildFrom | from.go:5-16 | a string gives its quoted form and itself; anything else gives two empty strings and "invalid syntax from" |
| Naming.BuildFromUnquotes | from.go:9 | the quoted table name unwraps to the raw one |
| Naming.Projection | attributes.go:17-18 | the full column name, ` AS `, the quoted attribute; length, table prefix and alias suffix |
| BuilderContext.Relation | builder_context.go:35-48 | succeeds exactly for `$and` and `$or`; `$and` gives an And node and `$or` an Or node of exactly the given conditions; any other relation gives "expect relation op" |
| BuilderContext.QualifiedFields | builder_context.go:184-196 | each key replaced by its full name in the current table, values and order kept |
| BuilderContext.ParseWhere | builder_context.go:17-55 | the loop over the map computes `WhereTree` |
| BuilderContext.ParseWhereEntry | builder_context.go:57-74 | computes `WhereEntryTree`: an operator key or a field, wrapped in an And |
| BuilderContext.ParseOp | builder_context.go:76-108 | computes `OpConds` |
| BuilderContext.ParseMultiple | builder_context.go:110-147 | the loop over the list computes `MultipleTrees`, one tree per element |
| BuilderContext.ParseElem | builder_context.go:149-176 | rebuilds the element's map and compiles it with relation `$and` |
| BuilderContext.ParseKeyValuePair | builder_context.go:178-204 | computes `PairConds`: qualified keys wrapped by the operator |
| BuilderContext.ParseVal | builder_context.go:206-245 | computes `ValConds`; a non-map value is one equality on the qualified field |
| BuilderContext.EntryTreesShape | builder_context.go:24-34 | the entries compile exactly when each one does, into one condition per entry in order |
| BuilderContext.WhereEntryIsAnd | builder_context.go:73 | an entry always compiles to an And node |
| BuilderContext.WhereTreeShape | builder_context.go:17-55 | a non-map is "invalid syntax"; a non-string key fails; a map succeeds exactly when every entry compiles and the relation is `$and` or `$or`; otherwise "expect relation op"; the node kind follows the relation, one child per entry |
| BuilderContext.FieldValue | builder_context.go:239-243 | a field with a plain value gives one qualified equality, wrapped in an And |
| BuilderContext.SingleComparison | builder_context.go:222-225 | an operator on a one-entry field map gives that single qualified comparison |
| BuilderContext.FieldMapNeedsOperators | builder_context.go:213-235 | a field's map compiles only if every key is a string and a known operator symbol |
| BuilderContext.FieldOperators | builder_context.go:206-238 | a field's map of comparison symbols gives one qualified comparison per symbol, in order |
| BuilderContext.PairQualifies | builder_context.go:178-204 | non-maps, non-string keys and non-comparison operators each give their error; success gives one qualified comparison per entry, in order |
| BuilderContext.GroupElements | builder_context.go:76-93 | `$and`/`$or` need a list, and give exactly one compiled tree per element |
| BuilderContext.ItemTreesShape | builder_context.go:118-126 | one tree per list element, each the element's own compilation |
| BuilderContext.NotFails | builder_context.go:94-98 | `$not` always gives "unimplementd" |
| BuilderContext.ElemIgnoresRel | builder_context.go:165-168 | a list element compiles the same under any relation, as a map compiled with `$and` |
| BuilderContext.OrGroupingLost | builder_context.go:57-74 | an `$or` entry compiles to the same And node as an `$and` entry |
| BuilderContext.NestingOrdersAgree | builder_context.go:57-74 | `{field: {op: v}}` and `{op: {field: v}}` compile to the same And of one qualified comparison |
| BuilderContext.EqualityShorthand | builder_context.go:57-74 | a plain value `{field: v}` compiles exactly like `{"$eq": {field: v}}` |
| BuilderContext.OperatorOverFields | builder_context.go:178-204 | a comparison operator over a map of string keys gives one And of one qualified comparison per field |
| BuilderContext.GroupedOperatorDiffers | builder_context.go:17-55 | `{op: {a: v1, b: v2}}` gives one entry tree of two comparisons, `{a: {op: v1}, b: {op: v2}}` two trees of one, and `setCompare` rejects the pair |
| BuilderContext.WhereTreeQualified | builder_context.go:17-55 | every column in a compiled tree belongs to the context's table |
| BuilderContext.EntryTreesQualified | builder_context.go:24-34 | the same, for the entries of a map |
| BuilderContext.WhereEntryTreeQualified | builder_context.go:57-74 | the same, for one entry |
| BuilderContext.OpCondsQualified | builder_context.go:76-108 | the same, for an operator's operand |
| BuilderContext.MultipleTreesQualified | builder_context.go:110-147 | the same, for a list |
| BuilderContext.ItemTreesQualified | builder_context.go:118-126 | the same, for the list elements |
| BuilderContext.ElemTreeQualified | builder_context.go:149-176 | the same, for one element |
| BuilderContext.PairCondsQualified | builder_context.go:193-197 | the same, for an operator's key/value map |
| BuilderContext.ValCondsQualified | builder_context.go:206-245 | the same, for a field's value |
| BuilderContext.ValEntryCondsQualified | builder_context.go:213-236 | the same, for a field's operator entries |
| BuilderContext.MapOrderIrrelevant | builder_context.go:17-48 | two iteration orders of the outermost map, nested values unchanged, both compile or both fail, and the trees match under `sqCompare` |
| BuilderContext.EntryTreesMatch | builder_context.go:23-34 | for two orders of one map's entries, the loop succeeds for both or neither, and each condition of one matches a condition of the other |
| BuilderContext.RelationMatches | builder_context.go:35-48 | wrapping matching child lists in the relation gives matching trees |
| BuilderContext.Table1Columns | builder_context_test.go:37-40 | unquoted columns of `table1` are `table1.a`, `table1.b` |
| BuilderContext.KeyValuePairCase | builder_context_test.go:24-41 | the `$and key:value` case gives the two qualified equalities |
| BuilderContext.ElemCase | builder_context_test.go:70-86 | the `parseElem` case gives an And of two single-equality Ands |
| BuilderContext.PlainField | builder_context_test.go:118-131 | a plain value gives one qualified equality |
| BuilderContext.FieldOperatorsCase | builder_context_test.go:132-149 | the `with op` case gives `table1.a < 1` and `table1.a > 2` |
| BuilderContext.TrivialRelationCase | builder_context_test.go:225-260 | the `trivial and` / `trivial or` cases give an And / Or of the two equalities |
| BuilderContext.OperatorOuterCase | builder_context_test.go:261-281 | the `op: {key: value}` case |
| BuilderContext.FieldOuterCase | builder_context_test.go:282-302 | the `key: {op: value}` case |
| Joins.WhereCtx | joins.go:33-34 | the copied context is bound to the joined table, with registry, quote and relation unchanged |
| Joins.OnClause | joins.go:13-15 | a clause starts with the joined table and ends with the joined key's full name |
| Joins.AsMap | joins.go:35 | an include's `where` as a map with string keys, entries in order |
| Joins.AddJoins | joins.go:9-44 | the loop computes `Joined`: the includes in order, stopping at the first failing `where` with the builder as it stands |
| Joins.StepEffect | joins.go:11-41 | for each kind of include, the clauses added, the condition added, and when it fails; columns and table never change |
| Joins.WhereWithThroughSkipped | joins.go:27-41 | an include with both a `where` and a through table adds no join clause and no condition, and no error |
| Joins.StepWhereQualified | joins.go:33-39 | an include's condition only compares columns of the joined table |
| Joins.JoinedInOrder | joins.go:10-43 | the joins are the original ones then each include's clauses in order; conditions only grow |
| Joins.JoinedErrors | joins.go:35-38 | an error exactly when some include's condition fails to compile, and then the first such error |
| Attributes.AttrBuild | attributes.go:9-32 | fails with "invalid syntax" exactly when some attribute is not a string; none gives `*`; otherwise one aliased column per attribute, in order |
| Attributes.ProjectionInjective | attributes.go:17-18 | the aliased column determines the attribute name |
| Attributes.ColumnsDistinct | attributes.go:11-20 | distinct attribute names give distinct selected columns |
| SetCompare.SqCompare | setCompare.go:43-56 | a match only pairs And with And and Or with Or; a comparison matches only an equal comparison |
| SetCompare.SqCompareAnd2Other | setCompare.go:58-67 | a conjunction matches only a conjunction with as many children |
| SetCompare.SqCompareOr2Other | setCompare.go:69-78 | a disjunction matches only a disjunction with as many children |
| SetCompare.AndCompare | setCompare.go:26-28 | matching child lists have the same length |
| SetCompare.OrCompare | setCompare.go:30-32 | matching child lists have the same length |
| SetCompare.Contains | setCompare.go:34-41 | an empty list contains nothing; for a comparison, containment is membership |
| SetCompare.SetCompare | setCompare.go:9-24 | matching lists have the same length, and each comparison in either list occurs in the other |
| SetCompare.ScanContains | setCompare.go:34-41 | the loop finds a match exactly when `Contains` holds |
| SetCompare.ScanAll | setCompare.go:13-22 | the loop checks every element against the other list |
| SetCompare.ScanSetCompare | setCompare.go:9-24 | the loops compute `SetCompare` |
| SetCompare.LengthsDiffer | setCompare.go:10-12 | lists of different lengths never match |
| SetCompare.SetCompareSymmetric | setCompare.go:9-24 | the two lists play the same role |
| SetCompare.SqCompareSymmetric | setCompare.go:43-78 | the tree comparison is symmetric |
| SetCompare.NodeKindsMatch | setCompare.go:43-78 | And matches only And, Or only Or, and a comparison only an equal one |
| SetCompare.SqCompareRefl | setCompare.go:43-78 | every tree matches itself |
| SetCompare.SetCompareRefl | setCompare.go:9-24 | every list matches itself |
| SetCompare.ContainsSameElements | setCompare.go:34-41 | `contains` depends only on which elements a list has |
| SetCompare.PermutationInvariant | setCompare.go:9-24 | reordering one list never changes the verdict |
| SetCompare.PermutationMatches | setCompare.go:9-24 | a list matches any reordering of itself |
| SetCompare.DuplicatesNotCounted | setCompare.go:9-24 | repetitions are not counted: `[x, x, y]` matches `[x, y, y]` |

## Left out

- squirrel is not part of this model. A `SelectBuilder` is the record
  `Select`, and a condition is the tree `Pred`. SQL rendering, placeholders
  and argument lists are not modelled.
- `reflect` is reduced to the cases the code distinguishes: map, array or
  slice (both `ListV`), struct, string, and any other scalar. A list
  element is seen as its dynamic value. In Go, an element of a `[]interface{}`
  has kind Interface, so `parseElem` rejects it; the model does not capture
  that.
- A Go map's iteration order is unspecified. The model fixes one order per
  map value. `BuilderContext.MapOrderIrrelevant` shows that the order of the
  outermost map does not matter up to `setCompare`. It says nothing about
  nested maps (a field's operator map, an operator's key/value map, the
  maps of list elements) or about the first compiler.
- A Go map cannot hold a key twice. The model does not require distinct keys
  in an entry sequence; on sequences with distinct keys it computes what Go
  does.
- The `fmt.Printf` debug line in `parseElem` (builder_context.go:167) is
  output only.
- The filter's `Attributes`, `Include`, `Order`, `Offset` and `Limit` are
  carried by `GoQuery.Filter` but not read by `Build`, as in the code.
- Literals are opaque. Only strings are told apart, where the code does
  (table and attribute names).
- `reflect.DeepEqual` on two comparisons is structural equality of `Pred`.
  For map operands this means equal entries in equal order, which is
  stricter than Go's map equality.
- The Go test of `Build` (goquery_test.go:328-375) is not modelled. It
  compares the returned `SelectBuilder` with `sq.Eq{"a": 1}` by
  `reflect.DeepEqual`, so it can never pass, and it says nothing about what
  the code is meant to do.
- The `Include` and `Through` types are not part of this model. The model
  defines them from the fields `addJoins` reads.
- `Builder.config.Quote` is not part of this model, because the shown
  `Builder` has no `config` field. The quote string is a field of
  `Naming.Ctx`.
- Naming.BuildFrom: the Go type switch matches only the dynamic type
  `string`; the model takes every `StrLit` to have that type.
