/** The context-based filter compiler: a recursive descent over map, list and
    scalar values that qualifies every field with the current table and keeps
    one `And` node per map entry, joined by the context's relation. */
module BuilderContext {
  import opened Types
  import GoQuery
  import opened Naming
  import SetCompare

  // ---------------------------------------------------------------------
  // What each parse function returns, as specification functions.
  // ---------------------------------------------------------------------

  /** The node a map becomes: its entries' conditions under the relation the
      context names; any relation but `$and` and `$or` is an error. */
  function Relation(rel: GoQuery.Op, conds: seq<Pred>): (r: Result<Pred>)
    ensures r.Ok? <==> rel == GoQuery.OP_AND || rel == GoQuery.OP_OR
    ensures r.Ok? ==> (r.value == And(conds) <==> rel == GoQuery.OP_AND)
    ensures r.Ok? ==> (r.value == Or(conds) <==> rel == GoQuery.OP_OR)
    ensures r.Err? ==> r.error == ExpectRelationOp
  {
    if rel == GoQuery.OP_AND then Ok(And(conds))
    else if rel == GoQuery.OP_OR then Ok(Or(conds))
    else Err(ExpectRelationOp)
  }

  /** `parseWhere` */
  function WhereTree(ctx: Ctx, where: Value): Result<Pred>
    decreases Size(where), 0
  {
    match where
    case MapV(es) =>
      (match EntryTrees(ctx, es)
       case Err(e) => Err(e)
       case Ok(cs) => Relation(ctx.rel, cs))
    case _ => Err(InvalidSyntax)
  }

  /** The loop of `parseWhere`: one condition per entry, in map order. */
  function EntryTrees(ctx: Ctx, es: seq<Entry>): Result<seq<Pred>>
    decreases EntriesSize(es), 8
  {
    if es == [] then Ok([])
    else if !es[0].key.StrKey? then Err(KeyNotString)
    else
      match WhereEntryTree(ctx, es[0].key.name, es[0].val)
      case Err(e) => Err(e)
      case Ok(c) => Then([c], EntryTrees(ctx, es[1..]))
  }

  /** `parseWhereEntry`: an operator key goes to `parseOp`, any other key to
      `parseVal`, and the list either returns is wrapped in `And`. */
  function WhereEntryTree(ctx: Ctx, key: string, value: Value): Result<Pred>
    decreases Size(value), 7
  {
    var cond := match GoQuery.ToOperator(ctx.builder, key)
                case Ok(op) => OpConds(ctx, op, value)
                case Err(_) => ValConds(ctx, key, value);
    match cond
    case Err(e) => Err(e)
    case Ok(cs) => Ok(And(cs))
  }

  /** `parseOp`: `$and` and `$or` both return the untagged list of their
      elements; `$not` is unimplemented; anything else is a comparison. */
  function OpConds(ctx: Ctx, op: GoQuery.Op, operand: Value): Result<seq<Pred>>
    decreases Size(operand), 4
  {
    if op == GoQuery.OP_AND || op == GoQuery.OP_OR then MultipleTrees(ctx, operand)
    else if op == GoQuery.OP_NOT then Err(NegationUnimplemented)
    else PairConds(ctx, op, operand)
  }

  /** `parseMultiple` */
  function MultipleTrees(ctx: Ctx, operand: Value): Result<seq<Pred>>
    decreases Size(operand), 3
  {
    match operand
    case ListV(xs) => ItemTrees(ctx, xs)
    case _ => Err(InvalidOperand)
  }

  /** The loop of `parseMultiple`: one tree per element, in list order. */
  function ItemTrees(ctx: Ctx, xs: seq<Value>): Result<seq<Pred>>
    decreases ItemsSize(xs), 2
  {
    if xs == [] then Ok([])
    else
      match ElemTree(ctx, xs[0])
      case Err(e) => Err(e)
      case Ok(c) => Then([c], ItemTrees(ctx, xs[1..]))
  }

  /** `parseElem`: a string-keyed map compiled as a `where` in a copy of the
      context whose relation is `$and`. */
  function ElemTree(ctx: Ctx, elem: Value): Result<Pred>
    decreases Size(elem), 1
  {
    match elem
    case MapV(es) =>
      if AllStrKeys(es) then WhereTree(Inherit(ctx).(rel := GoQuery.OP_AND), elem)
      else Err(KeyMustBeString)
    case _ => Err(ElemUnimplemented)
  }

  /** The map `parseKeyValuePair` hands to `wrapOp`: each key qualified with
      the context's table, each value unchanged. */
  function QualifiedFields(ctx: Ctx, es: seq<Entry>): (fs: Fields)
    requires AllStrKeys(es)
    ensures |fs| == |es|
    ensures forall i :: 0 <= i < |es| ==>
              fs[i] == (ToFullName(ctx, ctx.tableName, es[i].key.name), es[i].val)
  {
    seq(|es|, i requires 0 <= i < |es| => (ToFullName(ctx, ctx.tableName, es[i].key.name), es[i].val))
  }

  /** `parseKeyValuePair` */
  function PairConds(ctx: Ctx, op: GoQuery.Op, elem: Value): Result<seq<Pred>> {
    match elem
    case MapV(es) =>
      if AllStrKeys(es) then GoQuery.Wrapped(op, QualifiedFields(ctx, es)) else Err(KeyMustBeString)
    case _ => Err(InvalidOperand)
  }

  /** `parseVal`: a map of operators is compiled entry by entry against the
      field; any other value is one equality on the qualified field. */
  function ValConds(ctx: Ctx, key: string, where: Value): Result<seq<Pred>>
    decreases Size(where), 6
  {
    match where
    case MapV(es) => ValEntryConds(ctx, key, es)
    case _ => Ok([Leaf(Eq, ToFullName(ctx, ctx.tableName, key), where)])
  }

  /** The loop of `parseVal`: each `op: value` entry becomes `parseOp(op,
      {key: value})`. */
  function ValEntryConds(ctx: Ctx, key: string, es: seq<Entry>): Result<seq<Pred>>
    decreases 1 + EntriesSize(es), 5
  {
    if es == [] then Ok([])
    else if !es[0].key.StrKey? then Err(InvalidKeyType)
    else
      match GoQuery.ToOperator(ctx.builder, es[0].key.name)
      case Err(e) => Err(e)
      case Ok(op) =>
        GoQuery.SingletonSize(StrKey(key), es[0].val);
        match OpConds(ctx, op, MapV([Entry(StrKey(key), es[0].val)]))
        case Err(e) => Err(e)
        case Ok(parts) => Then(parts, ValEntryConds(ctx, key, es[1..]))
  }

  // ---------------------------------------------------------------------
  // The parse functions as the source writes them.
  // ---------------------------------------------------------------------

  lemma EntryBound(es: seq<Entry>, i: nat)
    requires i < |es|
    ensures Size(es[i].val) <= EntriesSize(es[i..])
  {
    assert es[i..][0] == es[i];
  }

  lemma ItemBound(xs: seq<Value>, i: nat)
    requires i < |xs|
    ensures Size(xs[i]) <= ItemsSize(xs[i..])
  {
    assert xs[i..][0] == xs[i];
  }

  method ParseWhere(ctx: Ctx, where: Value) returns (r: Result<Pred>)
    decreases Size(where), 0
    ensures r == WhereTree(ctx, where)
  {
    if !where.MapV? {
      return Err(InvalidSyntax);
    }
    var es := where.entries;
    var conds: seq<Pred> := [];
    var i := 0;
    assert es[i..] == es;
    ThenNothing(EntryTrees(ctx, es));
    while i < |es|
      invariant 0 <= i <= |es|
      invariant EntriesSize(es[i..]) <= EntriesSize(es)
      invariant EntryTrees(ctx, es) == Then(conds, EntryTrees(ctx, es[i..]))
    {
      assert es[i..][0] == es[i] && es[i..][1..] == es[i + 1..];
      if !es[i].key.StrKey? {
        assert EntryTrees(ctx, es[i..]) == Err(KeyNotString);
        return Err(KeyNotString);
      }
      EntryBound(es, i);
      var cond := ParseWhereEntry(ctx, es[i].key.name, es[i].val);
      if cond.Err? {
        assert EntryTrees(ctx, es[i..]) == Err(cond.error);
        return Err(cond.error);
      }
      ThenThen(conds, [cond.value], EntryTrees(ctx, es[i + 1..]));
      conds := conds + [cond.value];
      i := i + 1;
    }
    assert EntryTrees(ctx, es[i..]) == Ok([]);
    assert conds + [] == conds;
    if ctx.rel == GoQuery.OP_AND {
      r := Ok(And(conds));
    } else if ctx.rel == GoQuery.OP_OR {
      r := Ok(Or(conds));
    } else {
      r := Err(ExpectRelationOp);
    }
  }

  method ParseWhereEntry(ctx: Ctx, key: string, value: Value) returns (r: Result<Pred>)
    decreases Size(value), 7
    ensures r == WhereEntryTree(ctx, key, value)
  {
    var cond: Result<seq<Pred>>;
    var op := GoQuery.ToOperator(ctx.builder, key);
    if op.Ok? {
      cond := ParseOp(ctx, op.value, value);
    } else {
      cond := ParseVal(ctx, key, value);
    }
    if cond.Err? {
      return Err(cond.error);
    }
    r := Ok(And(cond.value));
  }

  method ParseOp(ctx: Ctx, op: GoQuery.Op, operand: Value) returns (r: Result<seq<Pred>>)
    decreases Size(operand), 4
    ensures r == OpConds(ctx, op, operand)
  {
    if op == GoQuery.OP_AND {
      r := ParseMultiple(ctx, operand);
    } else if op == GoQuery.OP_OR {
      r := ParseMultiple(ctx, operand);
    } else if op == GoQuery.OP_NOT {
      r := Err(NegationUnimplemented);
    } else {
      r := ParseKeyValuePair(ctx, op, operand);
    }
  }

  method ParseMultiple(ctx: Ctx, operand: Value) returns (r: Result<seq<Pred>>)
    decreases Size(operand), 3
    ensures r == MultipleTrees(ctx, operand)
  {
    if !operand.ListV? {
      return Err(InvalidOperand);
    }
    var xs := operand.items;
    var conds: seq<Pred> := [];
    var i := 0;
    assert xs[i..] == xs;
    ThenNothing(ItemTrees(ctx, xs));
    while i < |xs|
      invariant 0 <= i <= |xs|
      invariant ItemsSize(xs[i..]) <= ItemsSize(xs)
      invariant ItemTrees(ctx, xs) == Then(conds, ItemTrees(ctx, xs[i..]))
    {
      assert xs[i..][0] == xs[i] && xs[i..][1..] == xs[i + 1..];
      ItemBound(xs, i);
      var cond := ParseElem(ctx, xs[i]);
      if cond.Err? {
        assert ItemTrees(ctx, xs[i..]) == Err(cond.error);
        return Err(cond.error);
      }
      ThenThen(conds, [cond.value], ItemTrees(ctx, xs[i + 1..]));
      conds := conds + [cond.value];
      i := i + 1;
    }
    assert ItemTrees(ctx, xs[i..]) == Ok([]);
    assert conds + [] == conds;
    r := Ok(conds);
  }

  method ParseElem(ctx: Ctx, elem: Value) returns (r: Result<Pred>)
    decreases Size(elem), 1
    ensures r == ElemTree(ctx, elem)
  {
    if !elem.MapV? {
      return Err(ElemUnimplemented);
    }
    var es := elem.entries;
    var m: seq<Entry> := [];
    var i := 0;
    while i < |es|
      invariant 0 <= i <= |es|
      invariant AllStrKeys(es[..i])
      invariant m == es[..i]
    {
      if !es[i].key.StrKey? {
        return Err(KeyMustBeString);
      }
      m := m + [Entry(StrKey(es[i].key.name), es[i].val)];
      i := i + 1;
    }
    assert es[..i] == es;
    var nb := Inherit(ctx);
    nb := nb.(rel := GoQuery.OP_AND);
    r := ParseWhere(nb, MapV(m));
  }

  method ParseKeyValuePair(ctx: Ctx, op: GoQuery.Op, elem: Value) returns (r: Result<seq<Pred>>)
    ensures r == PairConds(ctx, op, elem)
  {
    if !elem.MapV? {
      return Err(InvalidOperand);
    }
    var es := elem.entries;
    var m: Fields := [];
    var i := 0;
    while i < |es|
      invariant 0 <= i <= |es|
      invariant AllStrKeys(es[..i])
      invariant m == QualifiedFields(ctx, es[..i])
    {
      if !es[i].key.StrKey? {
        return Err(KeyMustBeString);
      }
      var alias := ToFullName(ctx, ctx.tableName, es[i].key.name);
      m := m + [(alias, es[i].val)];
      i := i + 1;
    }
    assert es[..i] == es;
    r := GoQuery.WrapOp(op, m);
  }

  method ParseVal(ctx: Ctx, key: string, where: Value) returns (r: Result<seq<Pred>>)
    decreases Size(where), 6
    ensures r == ValConds(ctx, key, where)
  {
    if !where.MapV? {
      var alias := ToFullName(ctx, ctx.tableName, key);
      return Ok([Leaf(Eq, alias, where)]);
    }
    var es := where.entries;
    var conds: seq<Pred> := [];
    var i := 0;
    assert es[i..] == es;
    ThenNothing(ValEntryConds(ctx, key, es));
    while i < |es|
      invariant 0 <= i <= |es|
      invariant EntriesSize(es[i..]) <= EntriesSize(es)
      invariant ValEntryConds(ctx, key, es) == Then(conds, ValEntryConds(ctx, key, es[i..]))
    {
      assert es[i..][0] == es[i] && es[i..][1..] == es[i + 1..];
      if !es[i].key.StrKey? {
        assert ValEntryConds(ctx, key, es[i..]) == Err(InvalidKeyType);
        return Err(InvalidKeyType);
      }
      var op := GoQuery.ToOperator(ctx.builder, es[i].key.name);
      if op.Err? {
        assert ValEntryConds(ctx, key, es[i..]) == Err(op.error);
        return Err(op.error);
      }
      GoQuery.SingletonSize(StrKey(key), es[i].val);
      EntryBound(es, i);
      var operand := MapV([Entry(StrKey(key), es[i].val)]);
      var parts := ParseOp(ctx, op.value, operand);
      if parts.Err? {
        assert ValEntryConds(ctx, key, es[i..]) == Err(parts.error);
        return Err(parts.error);
      }
      ThenThen(conds, parts.value, ValEntryConds(ctx, key, es[i + 1..]));
      conds := conds + parts.value;
      i := i + 1;
    }
    assert ValEntryConds(ctx, key, es[i..]) == Ok([]);
    assert conds + [] == conds;
    r := Ok(conds);
  }

  // ---------------------------------------------------------------------
  // Shape of a compiled map
  // ---------------------------------------------------------------------

  /** An entry compiles on its own: its key is a string and its value
      compiles under that key. */
  predicate EntryOk(ctx: Ctx, e: Entry) {
    e.key.StrKey? && WhereEntryTree(ctx, e.key.name, e.val).Ok?
  }

  function EntryCond(ctx: Ctx, e: Entry): Pred
    requires EntryOk(ctx, e)
  {
    WhereEntryTree(ctx, e.key.name, e.val).value
  }

  /** The loop of `parseWhere` succeeds exactly when every entry compiles,
      and then holds each entry's condition at the entry's position. */
  lemma {:induction false} EntryTreesShape(ctx: Ctx, es: seq<Entry>)
    ensures EntryTrees(ctx, es).Ok? <==> forall i :: 0 <= i < |es| ==> EntryOk(ctx, es[i])
    ensures EntryTrees(ctx, es).Ok? ==>
              && |EntryTrees(ctx, es).value| == |es|
              && forall i :: 0 <= i < |es| ==> EntryTrees(ctx, es).value[i] == EntryCond(ctx, es[i])
    decreases |es|
  {
    if es != [] {
      EntryTreesShape(ctx, es[1..]);
      assert forall i :: 1 <= i < |es| ==> es[1..][i - 1] == es[i];
      if EntryOk(ctx, es[0]) && EntryTrees(ctx, es[1..]).Ok? {
        var rest := EntryTrees(ctx, es[1..]).value;
        assert EntryTrees(ctx, es).value == [EntryCond(ctx, es[0])] + rest;
      }
    }
  }

  /** `parseWhereEntry` always answers with an `And` node. */
  lemma WhereEntryIsAnd(ctx: Ctx, key: string, value: Value)
    ensures WhereEntryTree(ctx, key, value).Ok? ==> WhereEntryTree(ctx, key, value).value.And?
  {
  }

  /** `parseWhere` rejects anything but a map; on a map it succeeds exactly when
      every entry compiles and the relation is `$and` or `$or`, and then has one
      `And` child per entry, joined by `And` or `Or` as the relation says. */
  lemma WhereTreeShape(ctx: Ctx, where: Value)
    ensures !where.MapV? ==> WhereTree(ctx, where) == Err(InvalidSyntax)
    ensures where.MapV? ==>
              (WhereTree(ctx, where).Ok? <==>
                 && (ctx.rel == GoQuery.OP_AND || ctx.rel == GoQuery.OP_OR)
                 && forall i :: 0 <= i < |where.entries| ==> EntryOk(ctx, where.entries[i]))
    ensures where.MapV? && (exists i :: 0 <= i < |where.entries| && !where.entries[i].key.StrKey?) ==>
              WhereTree(ctx, where).Err?
    ensures where.MapV? && ctx.rel != GoQuery.OP_AND && ctx.rel != GoQuery.OP_OR &&
            (forall i :: 0 <= i < |where.entries| ==> EntryOk(ctx, where.entries[i])) ==>
              WhereTree(ctx, where) == Err(ExpectRelationOp)
    ensures WhereTree(ctx, where).Ok? ==>
              var t := WhereTree(ctx, where).value;
              && (ctx.rel == GoQuery.OP_AND ==> t.And?)
              && (ctx.rel == GoQuery.OP_OR ==> t.Or?)
              && |t.children| == |where.entries|
              && forall i :: 0 <= i < |where.entries| ==>
                   t.children[i] == EntryCond(ctx, where.entries[i]) && t.children[i].And?
  {
    if where.MapV? {
      var es := where.entries;
      EntryTreesShape(ctx, es);
      forall i | 0 <= i < |es| && EntryOk(ctx, es[i])
        ensures EntryCond(ctx, es[i]).And?
      {
        WhereEntryIsAnd(ctx, es[i].key.name, es[i].val);
      }
    }
  }

  // ---------------------------------------------------------------------
  // Field keys
  // ---------------------------------------------------------------------

  /** A value that is not a map, under a key that is not an operator, is one
      equality on the qualified field. */
  lemma FieldValue(ctx: Ctx, key: string, v: Value)
    requires GoQuery.ToOperator(ctx.builder, key).Err? && !v.MapV?
    ensures WhereEntryTree(ctx, key, v) == Ok(And([Leaf(Eq, ToFullName(ctx, ctx.tableName, key), v)]))
  {
  }

  /** One `op: value` entry with a comparison operator qualifies the field
      with the context's table. */
  lemma SingleComparison(ctx: Ctx, op: GoQuery.Op, key: string, v: Value)
    requires GoQuery.CmpKindOf(op).Some?
    ensures OpConds(ctx, op, MapV([Entry(StrKey(key), v)]))
            == Ok([Leaf(GoQuery.CmpKindOf(op).value, ToFullName(ctx, ctx.tableName, key), v)])
  {
    assert op != GoQuery.OP_AND && op != GoQuery.OP_OR && op != GoQuery.OP_NOT by {
      assert op[..2] == GoQuery.OP_EQ[..2] || op[..2] == GoQuery.OP_NOT_EQ[..2]
          || op[..2] == GoQuery.OP_GT[..2] || op[..2] == GoQuery.OP_LT[..2];
    }
    var es := [Entry(StrKey(key), v)];
    assert AllStrKeys(es);
    var fs := QualifiedFields(ctx, es);
    assert fs == [(ToFullName(ctx, ctx.tableName, key), v)];
    var leaves := GoQuery.Leaves(GoQuery.CmpKindOf(op).value, fs);
    assert leaves == [Leaf(GoQuery.CmpKindOf(op).value, ToFullName(ctx, ctx.tableName, key), v)] by {
      assert |leaves| == 1;
    }
  }

  /** A map under a field key compiles only if every inner key is a string
      that names an operator. */
  lemma {:induction false} FieldMapNeedsOperators(ctx: Ctx, key: string, es: seq<Entry>)
    ensures ValEntryConds(ctx, key, es).Ok? ==>
              forall i :: 0 <= i < |es| ==>
                es[i].key.StrKey? && GoQuery.ToOperator(ctx.builder, es[i].key.name).Ok?
    decreases |es|
  {
    if es != [] {
      FieldMapNeedsOperators(ctx, key, es[1..]);
      assert forall i :: 1 <= i < |es| ==> es[1..][i - 1] == es[i];
    }
  }

  /** `key: {op: value, ...}` with comparison operators: each entry is one
      comparison of the same qualified field, in map order. */
  lemma {:induction false} FieldOperators(ctx: Ctx, key: string, es: seq<Entry>)
    requires forall i :: 0 <= i < |es| ==> GoQuery.IsCmpSymbol(ctx.builder, es[i].key)
    ensures ValEntryConds(ctx, key, es).Ok?
    ensures |ValEntryConds(ctx, key, es).value| == |es|
    ensures forall i :: 0 <= i < |es| ==>
              ValEntryConds(ctx, key, es).value[i]
              == Leaf(GoQuery.CmpOfSymbol(ctx.builder, es[i].key), ToFullName(ctx, ctx.tableName, key), es[i].val)
    decreases |es|
  {
    if es != [] {
      assert GoQuery.IsCmpSymbol(ctx.builder, es[0].key);
      SingleComparison(ctx, GoQuery.ToOperator(ctx.builder, es[0].key.name).value, key, es[0].val);
      FieldOperators(ctx, key, es[1..]);
      var rest := ValEntryConds(ctx, key, es[1..]).value;
      var full := ToFullName(ctx, ctx.tableName, key);
      assert ValEntryConds(ctx, key, es).value
             == [Leaf(GoQuery.CmpOfSymbol(ctx.builder, es[0].key), full, es[0].val)] + rest;
      forall i | 1 <= i < |es|
        ensures ValEntryConds(ctx, key, es).value[i]
                == Leaf(GoQuery.CmpOfSymbol(ctx.builder, es[i].key), full, es[i].val)
      {
        assert es[1..][i - 1] == es[i];
      }
    }
  }

  // ---------------------------------------------------------------------
  // Operator keys
  // ---------------------------------------------------------------------

  /** `parseKeyValuePair` fails on a non-map, on a non-string key and on an
      operator without a comparison; otherwise each entry is a comparison of
      the qualified key with the entry's value. */
  lemma PairQualifies(ctx: Ctx, op: GoQuery.Op, elem: Value)
    ensures !elem.MapV? ==> PairConds(ctx, op, elem) == Err(InvalidOperand)
    ensures elem.MapV? && !AllStrKeys(elem.entries) ==> PairConds(ctx, op, elem) == Err(KeyMustBeString)
    ensures elem.MapV? && AllStrKeys(elem.entries) && GoQuery.CmpKindOf(op).None? ==>
              PairConds(ctx, op, elem) == Err(InvalidOp)
    ensures PairConds(ctx, op, elem).Ok? ==>
              && elem.MapV? && GoQuery.CmpKindOf(op).Some?
              && |PairConds(ctx, op, elem).value| == |elem.entries|
              && forall i :: 0 <= i < |elem.entries| ==>
                   elem.entries[i].key.StrKey? &&
                   PairConds(ctx, op, elem).value[i]
                   == Leaf(GoQuery.CmpKindOf(op).value,
                           ToFullName(ctx, ctx.tableName, elem.entries[i].key.name),
                           elem.entries[i].val)
  {
  }

  /** `$and` and `$or` need a list, and give one tree per element, each the
      element compiled as a `where`; `$not` always fails. */
  lemma {:induction false} GroupElements(ctx: Ctx, op: GoQuery.Op, operand: Value)
    requires op == GoQuery.OP_AND || op == GoQuery.OP_OR
    ensures !operand.ListV? ==> OpConds(ctx, op, operand) == Err(InvalidOperand)
    ensures OpConds(ctx, op, operand).Ok? ==>
              && operand.ListV?
              && |OpConds(ctx, op, operand).value| == |operand.items|
              && forall i :: 0 <= i < |operand.items| ==>
                   ElemTree(ctx, operand.items[i]) == Ok(OpConds(ctx, op, operand).value[i])
  {
    if operand.ListV? {
      ItemTreesShape(ctx, operand.items);
    }
  }

  lemma {:induction false} ItemTreesShape(ctx: Ctx, xs: seq<Value>)
    ensures ItemTrees(ctx, xs).Ok? ==>
              && |ItemTrees(ctx, xs).value| == |xs|
              && forall i :: 0 <= i < |xs| ==> ElemTree(ctx, xs[i]) == Ok(ItemTrees(ctx, xs).value[i])
    decreases |xs|
  {
    if xs != [] {
      ItemTreesShape(ctx, xs[1..]);
      if ItemTrees(ctx, xs).Ok? {
        var rest := ItemTrees(ctx, xs[1..]).value;
        assert ItemTrees(ctx, xs).value == [ElemTree(ctx, xs[0]).value] + rest;
        forall i | 1 <= i < |xs|
          ensures ElemTree(ctx, xs[i]) == Ok(ItemTrees(ctx, xs).value[i])
        {
          assert xs[1..][i - 1] == xs[i];
        }
      }
    }
  }

  lemma NotFails(ctx: Ctx, operand: Value)
    ensures OpConds(ctx, GoQuery.OP_NOT, operand) == Err(NegationUnimplemented)
  {
  }

  /** A list element is compiled with relation `$and` and the caller's table,
      whatever relation the caller has: the parent's relation does not reach
      into the element. */
  lemma ElemIgnoresRel(ctx: Ctx, rel: GoQuery.Op, elem: Value)
    ensures ElemTree(ctx.(rel := rel), elem) == ElemTree(ctx, elem)
    ensures elem.MapV? && AllStrKeys(elem.entries) ==>
              ElemTree(ctx, elem) == WhereTree(Ctx(ctx.builder, ctx.quote, GoQuery.OP_AND, ctx.tableName), elem)
  {
    assert Inherit(ctx.(rel := rel)).(rel := GoQuery.OP_AND) == Inherit(ctx).(rel := GoQuery.OP_AND);
  }

  /** The disjunction is lost: a `$or` key compiles to exactly what the `$and`
      key with the same operand gives, an `And` node. */
  lemma OrGroupingLost(ctx: Ctx, orSym: string, andSym: string, operand: Value)
    requires GoQuery.ToOperator(ctx.builder, orSym) == Ok(GoQuery.OP_OR)
    requires GoQuery.ToOperator(ctx.builder, andSym) == Ok(GoQuery.OP_AND)
    ensures WhereEntryTree(ctx, orSym, operand) == WhereEntryTree(ctx, andSym, operand)
    ensures WhereEntryTree(ctx, orSym, operand).Ok? ==> WhereEntryTree(ctx, orSym, operand).value.And?
  {
  }

  // ---------------------------------------------------------------------
  // Field-outer and operator-outer nesting
  // ---------------------------------------------------------------------

  /** One comparison can be written field-outer, `{field: {op: v}}`, or
      operator-outer, `{op: {field: v}}`: both give the same `And` of one
      qualified comparison. */
  lemma NestingOrdersAgree(ctx: Ctx, field: string, sym: string, v: Value)
    requires GoQuery.ToOperator(ctx.builder, field).Err?
    requires GoQuery.IsCmpSymbol(ctx.builder, StrKey(sym))
    ensures WhereEntryTree(ctx, field, MapV([Entry(StrKey(sym), v)]))
            == WhereEntryTree(ctx, sym, MapV([Entry(StrKey(field), v)]))
    ensures WhereEntryTree(ctx, field, MapV([Entry(StrKey(sym), v)]))
            == Ok(And([Leaf(GoQuery.CmpOfSymbol(ctx.builder, StrKey(sym)), ToFullName(ctx, ctx.tableName, field), v)]))
  {
    var es := [Entry(StrKey(sym), v)];
    var leaf := Leaf(GoQuery.CmpOfSymbol(ctx.builder, StrKey(sym)), ToFullName(ctx, ctx.tableName, field), v);
    assert GoQuery.IsCmpSymbol(ctx.builder, es[0].key);
    FieldOperators(ctx, field, es);
    var conds := ValEntryConds(ctx, field, es).value;
    assert |conds| == 1 && conds[0] == leaf;
    assert conds == [leaf];
    SingleComparison(ctx, GoQuery.ToOperator(ctx.builder, sym).value, field, v);
  }

  /** The plain form `{field: v}` is shorthand for `{"$eq": {field: v}}`. */
  lemma EqualityShorthand(ctx: Ctx, field: string, eqSym: string, v: Value)
    requires GoQuery.ToOperator(ctx.builder, field).Err?
    requires GoQuery.ToOperator(ctx.builder, eqSym) == Ok(GoQuery.OP_EQ)
    requires !v.MapV?
    ensures WhereEntryTree(ctx, field, v) == WhereEntryTree(ctx, eqSym, MapV([Entry(StrKey(field), v)]))
  {
    FieldValue(ctx, field, v);
    SingleComparison(ctx, GoQuery.OP_EQ, field, v);
  }

  /** An operator key over a map of string keys compiles to its comparisons,
      one per entry, in one `And`. */
  lemma OperatorOverFields(ctx: Ctx, sym: string, es: seq<Entry>)
    requires GoQuery.IsCmpSymbol(ctx.builder, StrKey(sym)) && AllStrKeys(es)
    ensures WhereEntryTree(ctx, sym, MapV(es))
            == Ok(And(GoQuery.Leaves(GoQuery.CmpOfSymbol(ctx.builder, StrKey(sym)), QualifiedFields(ctx, es))))
  {
    var op := GoQuery.ToOperator(ctx.builder, sym).value;
    assert op != GoQuery.OP_AND && op != GoQuery.OP_OR && op != GoQuery.OP_NOT by {
      assert op[..2] == GoQuery.OP_EQ[..2] || op[..2] == GoQuery.OP_NOT_EQ[..2]
          || op[..2] == GoQuery.OP_GT[..2] || op[..2] == GoQuery.OP_LT[..2];
    }
  }

  /** The two nestings are not interchangeable once an operator groups
      several fields: `{op: {a: v1, b: v2}}` yields one entry tree holding
      both comparisons, `{a: {op: v1}, b: {op: v2}}` yields two entry trees
      of one comparison each, and the set comparison tells them apart. */
  lemma GroupedOperatorDiffers(ctx: Ctx, sym: string, a: string, b: string, v1: Value, v2: Value)
    requires ctx.rel == GoQuery.OP_AND || ctx.rel == GoQuery.OP_OR
    requires GoQuery.IsCmpSymbol(ctx.builder, StrKey(sym))
    requires GoQuery.ToOperator(ctx.builder, a).Err? && GoQuery.ToOperator(ctx.builder, b).Err?
    ensures var k := GoQuery.CmpOfSymbol(ctx.builder, StrKey(sym));
            var fa := ToFullName(ctx, ctx.tableName, a);
            var fb := ToFullName(ctx, ctx.tableName, b);
            && WhereTree(ctx, MapV([Entry(StrKey(sym), MapV([Entry(StrKey(a), v1), Entry(StrKey(b), v2)]))]))
               == Relation(ctx.rel, [And([Leaf(k, fa, v1), Leaf(k, fb, v2)])])
            && WhereTree(ctx, MapV([Entry(StrKey(a), MapV([Entry(StrKey(sym), v1)])),
                                    Entry(StrKey(b), MapV([Entry(StrKey(sym), v2)]))]))
               == Relation(ctx.rel, [And([Leaf(k, fa, v1)]), And([Leaf(k, fb, v2)])])
    ensures !SetCompare.SqCompare(
               WhereTree(ctx, MapV([Entry(StrKey(sym), MapV([Entry(StrKey(a), v1), Entry(StrKey(b), v2)]))])).value,
               WhereTree(ctx, MapV([Entry(StrKey(a), MapV([Entry(StrKey(sym), v1)])),
                                    Entry(StrKey(b), MapV([Entry(StrKey(sym), v2)]))])).value)
  {
    var k := GoQuery.CmpOfSymbol(ctx.builder, StrKey(sym));
    var fa := ToFullName(ctx, ctx.tableName, a);
    var fb := ToFullName(ctx, ctx.tableName, b);
    var inner := [Entry(StrKey(a), v1), Entry(StrKey(b), v2)];
    assert AllStrKeys(inner);
    OperatorOverFields(ctx, sym, inner);
    var fs := QualifiedFields(ctx, inner);
    assert fs == [(fa, v1), (fb, v2)];
    var grouped := GoQuery.Leaves(k, fs);
    assert grouped == [Leaf(k, fa, v1), Leaf(k, fb, v2)] by {
      assert |grouped| == 2;
    }
    var g := Entry(StrKey(sym), MapV(inner));
    assert EntryOk(ctx, g) && EntryCond(ctx, g) == And(grouped);
    assert [g][1..] == [];
    assert EntryTrees(ctx, [g][1..]) == Ok([]);
    assert [And(grouped)] + [] == [And(grouped)];
    assert EntryTrees(ctx, [g]) == Ok([And(grouped)]);
    var t1 := WhereTree(ctx, MapV([g]));
    assert t1 == Relation(ctx.rel, [And(grouped)]);

    NestingOrdersAgree(ctx, a, sym, v1);
    NestingOrdersAgree(ctx, b, sym, v2);
    var ea := Entry(StrKey(a), MapV([Entry(StrKey(sym), v1)]));
    var eb := Entry(StrKey(b), MapV([Entry(StrKey(sym), v2)]));
    TwoEntries(ctx, ea, eb);
    var t2 := WhereTree(ctx, MapV([ea, eb]));
    assert t2 == Relation(ctx.rel, [And([Leaf(k, fa, v1)]), And([Leaf(k, fb, v2)])]);

    if ctx.rel == GoQuery.OP_AND {
      assert SetCompare.SqCompare(t1.value, t2.value)
             == SetCompare.SqCompareAnd2Other([And(grouped)], t2.value);
    } else {
      assert SetCompare.SqCompare(t1.value, t2.value)
             == SetCompare.SqCompareOr2Other([And(grouped)], t2.value);
    }
  }

  // ---------------------------------------------------------------------
  // Every field is qualified with the current table
  // ---------------------------------------------------------------------

  /** Every comparison in the tree names a field that starts with `prefix`. */
  predicate Qualified(p: Pred, prefix: string) {
    match p
    case Leaf(_, field, _) => prefix <= field
    case And(cs) => forall i :: 0 <= i < |cs| ==> Qualified(cs[i], prefix)
    case Or(cs) => forall i :: 0 <= i < |cs| ==> Qualified(cs[i], prefix)
  }

  predicate AllQualified(cs: seq<Pred>, prefix: string) {
    forall i :: 0 <= i < |cs| ==> Qualified(cs[i], prefix)
  }

  predicate QualifiedResult(r: Result<seq<Pred>>, prefix: string) {
    r.Ok? ==> AllQualified(r.value, prefix)
  }

  predicate QualifiedTree(r: Result<Pred>, prefix: string) {
    r.Ok? ==> Qualified(r.value, prefix)
  }

  lemma ThenQualified(a: seq<Pred>, rest: Result<seq<Pred>>, prefix: string)
    requires AllQualified(a, prefix) && QualifiedResult(rest, prefix)
    ensures QualifiedResult(Then(a, rest), prefix)
  {
    if rest.Ok? {
      var all := a + rest.value;
      forall i | 0 <= i < |all|
        ensures Qualified(all[i], prefix)
      {
        if i >= |a| {
          assert all[i] == rest.value[i - |a|];
        }
      }
    }
  }

  /** Whatever the nesting, `parseWhere` only ever compares columns of the
      context's table: every field it emits starts with the quoted table name
      and a dot. */
  lemma {:induction false} WhereTreeQualified(ctx: Ctx, where: Value)
    ensures QualifiedTree(WhereTree(ctx, where), TablePrefix(ctx, ctx.tableName))
    decreases Size(where), 0
  {
    if where.MapV? {
      EntryTreesQualified(ctx, where.entries);
    }
  }

  lemma {:induction false} EntryTreesQualified(ctx: Ctx, es: seq<Entry>)
    ensures QualifiedResult(EntryTrees(ctx, es), TablePrefix(ctx, ctx.tableName))
    decreases EntriesSize(es), 8
  {
    if es != [] && es[0].key.StrKey? {
      var prefix := TablePrefix(ctx, ctx.tableName);
      WhereEntryTreeQualified(ctx, es[0].key.name, es[0].val);
      EntryTreesQualified(ctx, es[1..]);
      var c := WhereEntryTree(ctx, es[0].key.name, es[0].val);
      if c.Ok? {
        assert AllQualified([c.value], prefix);
        ThenQualified([c.value], EntryTrees(ctx, es[1..]), prefix);
      }
    }
  }

  lemma {:induction false} WhereEntryTreeQualified(ctx: Ctx, key: string, value: Value)
    ensures QualifiedTree(WhereEntryTree(ctx, key, value), TablePrefix(ctx, ctx.tableName))
    decreases Size(value), 7
  {
    match GoQuery.ToOperator(ctx.builder, key)
    case Ok(op) => OpCondsQualified(ctx, op, value);
    case Err(_) => ValCondsQualified(ctx, key, value);
  }

  lemma {:induction false} OpCondsQualified(ctx: Ctx, op: GoQuery.Op, operand: Value)
    ensures QualifiedResult(OpConds(ctx, op, operand), TablePrefix(ctx, ctx.tableName))
    decreases Size(operand), 4
  {
    if op == GoQuery.OP_AND || op == GoQuery.OP_OR {
      MultipleTreesQualified(ctx, operand);
    } else if op != GoQuery.OP_NOT {
      PairCondsQualified(ctx, op, operand);
    }
  }

  lemma {:induction false} MultipleTreesQualified(ctx: Ctx, operand: Value)
    ensures QualifiedResult(MultipleTrees(ctx, operand), TablePrefix(ctx, ctx.tableName))
    decreases Size(operand), 3
  {
    if operand.ListV? {
      ItemTreesQualified(ctx, operand.items);
    }
  }

  lemma {:induction false} ItemTreesQualified(ctx: Ctx, xs: seq<Value>)
    ensures QualifiedResult(ItemTrees(ctx, xs), TablePrefix(ctx, ctx.tableName))
    decreases ItemsSize(xs), 2
  {
    if xs != [] {
      var prefix := TablePrefix(ctx, ctx.tableName);
      ElemTreeQualified(ctx, xs[0]);
      ItemTreesQualified(ctx, xs[1..]);
      var c := ElemTree(ctx, xs[0]);
      if c.Ok? {
        assert AllQualified([c.value], prefix);
        ThenQualified([c.value], ItemTrees(ctx, xs[1..]), prefix);
      }
    }
  }

  lemma {:induction false} ElemTreeQualified(ctx: Ctx, elem: Value)
    ensures QualifiedTree(ElemTree(ctx, elem), TablePrefix(ctx, ctx.tableName))
    decreases Size(elem), 1
  {
    if elem.MapV? && AllStrKeys(elem.entries) {
      var nb := Inherit(ctx).(rel := GoQuery.OP_AND);
      assert TablePrefix(nb, nb.tableName) == TablePrefix(ctx, ctx.tableName);
      WhereTreeQualified(nb, elem);
    }
  }

  lemma PairCondsQualified(ctx: Ctx, op: GoQuery.Op, elem: Value)
    ensures QualifiedResult(PairConds(ctx, op, elem), TablePrefix(ctx, ctx.tableName))
  {
    PairQualifies(ctx, op, elem);
  }

  lemma {:induction false} ValCondsQualified(ctx: Ctx, key: string, where: Value)
    ensures QualifiedResult(ValConds(ctx, key, where), TablePrefix(ctx, ctx.tableName))
    decreases Size(where), 6
  {
    if where.MapV? {
      ValEntryCondsQualified(ctx, key, where.entries);
    }
  }

  lemma {:induction false} ValEntryCondsQualified(ctx: Ctx, key: string, es: seq<Entry>)
    ensures QualifiedResult(ValEntryConds(ctx, key, es), TablePrefix(ctx, ctx.tableName))
    decreases 1 + EntriesSize(es), 5
  {
    if es != [] && es[0].key.StrKey? && GoQuery.ToOperator(ctx.builder, es[0].key.name).Ok? {
      var op := GoQuery.ToOperator(ctx.builder, es[0].key.name).value;
      var operand := MapV([Entry(StrKey(key), es[0].val)]);
      GoQuery.SingletonSize(StrKey(key), es[0].val);
      OpCondsQualified(ctx, op, operand);
      ValEntryCondsQualified(ctx, key, es[1..]);
      var parts := OpConds(ctx, op, operand);
      if parts.Ok? {
        ThenQualified(parts.value, ValEntryConds(ctx, key, es[1..]), TablePrefix(ctx, ctx.tableName));
      }
    }
  }

  // ---------------------------------------------------------------------
  // The order Go visits a map in does not matter
  // ---------------------------------------------------------------------

  /** Two iteration orders of one map compile alike: both succeed or both
      fail, and when they succeed the trees match under `sqCompare`. (Which
      error is reported can depend on the order.) */
  lemma MapOrderIrrelevant(ctx: Ctx, es1: seq<Entry>, es2: seq<Entry>)
    requires multiset(es1) == multiset(es2)
    ensures WhereTree(ctx, MapV(es1)).Ok? <==> WhereTree(ctx, MapV(es2)).Ok?
    ensures WhereTree(ctx, MapV(es1)).Ok? ==>
              SetCompare.SqCompare(WhereTree(ctx, MapV(es1)).value, WhereTree(ctx, MapV(es2)).value)
  {
    EntryTreesMatch(ctx, es1, es2);
    var t1 := EntryTrees(ctx, es1);
    var t2 := EntryTrees(ctx, es2);
    if t1.Ok? {
      assert WhereTree(ctx, MapV(es1)) == Relation(ctx.rel, t1.value);
      assert WhereTree(ctx, MapV(es2)) == Relation(ctx.rel, t2.value);
      RelationMatches(ctx.rel, t1.value, t2.value);
    }
  }

  /** The conditions of two orders of one map's entries: both lists or
      neither, and then each condition of one matches one of the other. */
  lemma EntryTreesMatch(ctx: Ctx, es1: seq<Entry>, es2: seq<Entry>)
    requires multiset(es1) == multiset(es2)
    ensures EntryTrees(ctx, es1).Ok? <==> EntryTrees(ctx, es2).Ok?
    ensures EntryTrees(ctx, es1).Ok? ==>
              var c1 := EntryTrees(ctx, es1).value;
              var c2 := EntryTrees(ctx, es2).value;
              && |c1| == |c2|
              && (forall i :: 0 <= i < |c1| ==> SetCompare.Contains(c2, c1[i]))
              && (forall j :: 0 <= j < |c2| ==> SetCompare.Contains(c1, c2[j]))
  {
    SameEntries(es1, es2);
    EntryTreesShape(ctx, es1);
    EntryTreesShape(ctx, es2);
    if forall i :: 0 <= i < |es1| ==> EntryOk(ctx, es1[i]) {
      EntriesAllOk(ctx, es1, es2);
    }
    if forall j :: 0 <= j < |es2| ==> EntryOk(ctx, es2[j]) {
      EntriesAllOk(ctx, es2, es1);
    }
    var t1 := EntryTrees(ctx, es1);
    var t2 := EntryTrees(ctx, es2);
    if t1.Ok? {
      ChildrenMatch(ctx, es1, es2, t1.value, t2.value);
      ChildrenMatch(ctx, es2, es1, t2.value, t1.value);
    }
  }

  lemma SameEntries(es1: seq<Entry>, es2: seq<Entry>)
    requires multiset(es1) == multiset(es2)
    ensures |es1| == |es2|
    ensures forall e :: e in es1 <==> e in es2
  {
    assert |es1| == |multiset(es1)| == |multiset(es2)| == |es2|;
    forall e
      ensures e in es1 <==> e in es2
    {
      assert e in es1 <==> e in multiset(es1);
      assert e in es2 <==> e in multiset(es2);
    }
  }

  lemma RelationMatches(rel: GoQuery.Op, c1: seq<Pred>, c2: seq<Pred>)
    requires |c1| == |c2|
    requires forall i :: 0 <= i < |c1| ==> SetCompare.Contains(c2, c1[i])
    requires forall j :: 0 <= j < |c2| ==> SetCompare.Contains(c1, c2[j])
    ensures Relation(rel, c1).Ok? <==> Relation(rel, c2).Ok?
    ensures Relation(rel, c1).Ok? ==> SetCompare.SqCompare(Relation(rel, c1).value, Relation(rel, c2).value)
  {
    assert SetCompare.SetCompare(c1, c2);
    if rel == GoQuery.OP_AND {
      assert SetCompare.SqCompare(And(c1), And(c2)) == SetCompare.AndCompare(c1, c2);
    } else if rel == GoQuery.OP_OR {
      assert SetCompare.SqCompare(Or(c1), Or(c2)) == SetCompare.OrCompare(c1, c2);
    }
  }

  lemma EntriesAllOk(ctx: Ctx, es1: seq<Entry>, es2: seq<Entry>)
    requires forall e :: e in es1 <==> e in es2
    requires forall i :: 0 <= i < |es1| ==> EntryOk(ctx, es1[i])
    ensures forall j :: 0 <= j < |es2| ==> EntryOk(ctx, es2[j])
  {
    forall j | 0 <= j < |es2|
      ensures EntryOk(ctx, es2[j])
    {
      assert es2[j] in es1;
      var i :| 0 <= i < |es1| && es1[i] == es2[j];
    }
  }

  lemma ChildrenMatch(ctx: Ctx, es1: seq<Entry>, es2: seq<Entry>, c1: seq<Pred>, c2: seq<Pred>)
    requires forall e :: e in es1 <==> e in es2
    requires forall i :: 0 <= i < |es1| ==> EntryOk(ctx, es1[i])
    requires forall j :: 0 <= j < |es2| ==> EntryOk(ctx, es2[j])
    requires |c1| == |es1| && forall i :: 0 <= i < |es1| ==> c1[i] == EntryCond(ctx, es1[i])
    requires |c2| == |es2| && forall j :: 0 <= j < |es2| ==> c2[j] == EntryCond(ctx, es2[j])
    ensures forall i :: 0 <= i < |c1| ==> SetCompare.Contains(c2, c1[i])
  {
    forall i | 0 <= i < |c1|
      ensures SetCompare.Contains(c2, c1[i])
    {
      assert es1[i] in es2;
      var j :| 0 <= j < |es2| && es2[j] == es1[i];
      SetCompare.SqCompareRefl(c1[i]);
      assert SetCompare.SqCompare(c2[j], c1[i]);
    }
  }

  // ---------------------------------------------------------------------
  // The compiler on the cases of builder_context_test.go
  // ---------------------------------------------------------------------

  function TestCtx(rel: GoQuery.Op): Ctx {
    Ctx(GoQuery.DefaultBuilder(), "", rel, "table1")
  }

  function Int(i: int): Value {
    Scalar(IntLit(i))
  }

  /** The two columns the cases use, in table1 without quoting. */
  lemma Table1Columns(ctx: Ctx)
    requires ctx.quote == "" && ctx.tableName == "table1"
    ensures ToFullName(ctx, ctx.tableName, "a") == "table1.a"
    ensures ToFullName(ctx, ctx.tableName, "b") == "table1.b"
  {
    UnquotedFullName(ctx, "table1", "a");
    UnquotedFullName(ctx, "table1", "b");
    assert "table1" + "." + "a" == "table1.a";
    assert "table1" + "." + "b" == "table1.b";
  }

  /** A two-entry map compiles to its two entries' conditions. */
  lemma TwoEntries(ctx: Ctx, e1: Entry, e2: Entry)
    requires EntryOk(ctx, e1) && EntryOk(ctx, e2)
    ensures EntryTrees(ctx, [e1, e2]) == Ok([EntryCond(ctx, e1), EntryCond(ctx, e2)])
  {
    var es := [e1, e2];
    EntryTreesShape(ctx, es);
    assert EntryOk(ctx, es[0]) && EntryOk(ctx, es[1]);
    var cs := EntryTrees(ctx, es).value;
    assert cs[0] == EntryCond(ctx, e1) && cs[1] == EntryCond(ctx, e2);
    assert cs == [EntryCond(ctx, e1), EntryCond(ctx, e2)];
  }

  /** An unregistered key holding a number, in table1 without quoting. */
  lemma PlainField(rel: GoQuery.Op, key: string, i: int)
    requires key == "a" || key == "b"
    ensures EntryOk(TestCtx(rel), Entry(StrKey(key), Int(i)))
    ensures EntryCond(TestCtx(rel), Entry(StrKey(key), Int(i)))
            == And([Leaf(Eq, if key == "a" then "table1.a" else "table1.b", Int(i))])
  {
    GoQuery.DefaultToOperator(key);
    FieldValue(TestCtx(rel), key, Int(i));
    Table1Columns(TestCtx(rel));
  }

  /** "$and key:value": `$eq` over `{a: 1, b: 2}` in table1. */
  lemma KeyValuePairCase()
    ensures PairConds(Ctx(GoQuery.Builder(map[], map[]), "", "", "table1"), GoQuery.OP_EQ,
                      MapV([Entry(StrKey("a"), Int(1)), Entry(StrKey("b"), Int(2))]))
            == Ok([Leaf(Eq, "table1.a", Int(1)), Leaf(Eq, "table1.b", Int(2))])
  {
    var ctx := Ctx(GoQuery.Builder(map[], map[]), "", "", "table1");
    var es := [Entry(StrKey("a"), Int(1)), Entry(StrKey("b"), Int(2))];
    Table1Columns(ctx);
    assert AllStrKeys(es);
    var fs := QualifiedFields(ctx, es);
    assert fs == [("table1.a", Int(1)), ("table1.b", Int(2))];
    assert GoQuery.Leaves(Eq, fs) == [Leaf(Eq, "table1.a", Int(1)), Leaf(Eq, "table1.b", Int(2))];
  }

  /** "parseElem": the element is compiled with relation `$and` although the
      context's relation is the empty string. */
  lemma ElemCase()
    ensures ElemTree(TestCtx(""), MapV([Entry(StrKey("a"), Int(1)), Entry(StrKey("b"), Int(2))]))
            == Ok(And([And([Leaf(Eq, "table1.a", Int(1))]), And([Leaf(Eq, "table1.b", Int(2))])]))
  {
    var es := [Entry(StrKey("a"), Int(1)), Entry(StrKey("b"), Int(2))];
    assert AllStrKeys(es);
    assert Inherit(TestCtx("")).(rel := GoQuery.OP_AND) == TestCtx(GoQuery.OP_AND);
    PlainField(GoQuery.OP_AND, "a", 1);
    PlainField(GoQuery.OP_AND, "b", 2);
    TwoEntries(TestCtx(GoQuery.OP_AND), es[0], es[1]);
  }

  /** "trivial and" and "trivial or": the relation picks the node. */
  lemma TrivialRelationCase(rel: GoQuery.Op)
    requires rel == GoQuery.OP_AND || rel == GoQuery.OP_OR
    ensures var children := [And([Leaf(Eq, "table1.a", Int(1))]), And([Leaf(Eq, "table1.b", Int(2))])];
            WhereTree(TestCtx(rel), MapV([Entry(StrKey("a"), Int(1)), Entry(StrKey("b"), Int(2))]))
            == Ok(if rel == GoQuery.OP_AND then And(children) else Or(children))
  {
    var es := [Entry(StrKey("a"), Int(1)), Entry(StrKey("b"), Int(2))];
    PlainField(rel, "a", 1);
    PlainField(rel, "b", 2);
    TwoEntries(TestCtx(rel), es[0], es[1]);
  }

  /** "op: {key: value} syntax": `{"$eq": {a: 1, b: 2}, "b": 2}`. */
  lemma OperatorOuterCase()
    ensures WhereTree(TestCtx(GoQuery.OP_AND),
                      MapV([Entry(StrKey("$eq"), MapV([Entry(StrKey("a"), Int(1)), Entry(StrKey("b"), Int(2))])),
                            Entry(StrKey("b"), Int(2))]))
            == Ok(And([And([Leaf(Eq, "table1.a", Int(1)), Leaf(Eq, "table1.b", Int(2))]),
                       And([Leaf(Eq, "table1.b", Int(2))])]))
  {
    var ctx := TestCtx(GoQuery.OP_AND);
    var inner := [Entry(StrKey("a"), Int(1)), Entry(StrKey("b"), Int(2))];
    var e1 := Entry(StrKey("$eq"), MapV(inner));
    GoQuery.DefaultToOperator("$eq");
    Table1Columns(ctx);
    assert AllStrKeys(inner);
    var fs := QualifiedFields(ctx, inner);
    assert fs == [("table1.a", Int(1)), ("table1.b", Int(2))];
    assert GoQuery.Leaves(Eq, fs) == [Leaf(Eq, "table1.a", Int(1)), Leaf(Eq, "table1.b", Int(2))];
    assert EntryCond(ctx, e1) == And([Leaf(Eq, "table1.a", Int(1)), Leaf(Eq, "table1.b", Int(2))]);
    PlainField(GoQuery.OP_AND, "b", 2);
    TwoEntries(ctx, e1, Entry(StrKey("b"), Int(2)));
  }

  /** "with op": `parseVal("a", {"$lt": 1, "$gt": 2})`. */
  lemma FieldOperatorsCase()
    ensures ValConds(TestCtx(""), "a", MapV([Entry(StrKey("$lt"), Int(1)), Entry(StrKey("$gt"), Int(2))]))
            == Ok([Leaf(Lt, "table1.a", Int(1)), Leaf(Gt, "table1.a", Int(2))])
  {
    var ctx := TestCtx("");
    var es := [Entry(StrKey("$lt"), Int(1)), Entry(StrKey("$gt"), Int(2))];
    GoQuery.DefaultToOperator("$lt");
    GoQuery.DefaultToOperator("$gt");
    Table1Columns(ctx);
    FieldOperators(ctx, "a", es);
    assert ValEntryConds(ctx, "a", es).value == [Leaf(Lt, "table1.a", Int(1)), Leaf(Gt, "table1.a", Int(2))];
  }

  /** "key: {op: value} syntax": `{"a": {"$eq": 1, "$gt": 2}, "b": 2}`. */
  lemma FieldOuterCase()
    ensures WhereTree(TestCtx(GoQuery.OP_AND),
                      MapV([Entry(StrKey("a"), MapV([Entry(StrKey("$eq"), Int(1)), Entry(StrKey("$gt"), Int(2))])),
                            Entry(StrKey("b"), Int(2))]))
            == Ok(And([And([Leaf(Eq, "table1.a", Int(1)), Leaf(Gt, "table1.a", Int(2))]),
                       And([Leaf(Eq, "table1.b", Int(2))])]))
  {
    var ctx := TestCtx(GoQuery.OP_AND);
    var inner := [Entry(StrKey("$eq"), Int(1)), Entry(StrKey("$gt"), Int(2))];
    var e1 := Entry(StrKey("a"), MapV(inner));
    GoQuery.DefaultToOperator("a");
    GoQuery.DefaultToOperator("$eq");
    GoQuery.DefaultToOperator("$gt");
    Table1Columns(ctx);
    FieldOperators(ctx, "a", inner);
    assert ValEntryConds(ctx, "a", inner).value == [Leaf(Eq, "table1.a", Int(1)), Leaf(Gt, "table1.a", Int(2))];
    assert EntryCond(ctx, e1) == And([Leaf(Eq, "table1.a", Int(1)), Leaf(Gt, "table1.a", Int(2))]);
    PlainField(GoQuery.OP_AND, "b", 2);
    TwoEntries(ctx, e1, Entry(StrKey("b"), Int(2)));
  }
}
