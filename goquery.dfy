/** The operator registry, the leaf builder `wrapOp`, and the older `Builder`
    walker that `Build` calls: it emits unqualified field names and flattens
    every result into one list of comparisons. */
module GoQuery {
  import opened Types

  /** An operator's canonical identity (Go `type Op string`). */
  type Op = string

  const OP_AND: Op := "$and"
  const OP_OR: Op := "$or"
  const OP_NOT: Op := "$not"
  const OP_EQ: Op := "$eq"
  const OP_NOT_EQ: Op := "$notEq"
  const OP_GT: Op := "$gt"
  const OP_GTE: Op := "$gte"
  const OP_LT: Op := "$lt"
  const OP_LTE: Op := "$lte"

  /** Every operator with its default external symbol, which is its own name. */
  const DEFAULT_OP_MAPPING: map<Op, string> := map[
    OP_AND := "$and", OP_OR := "$or", OP_NOT := "$not",
    OP_EQ := "$eq", OP_NOT_EQ := "$notEq",
    OP_GT := "$gt", OP_GTE := "$gte", OP_LT := "$lt", OP_LTE := "$lte"]

  /** The reverse of the default table: each default symbol names itself. */
  const DEFAULT_REV_MAPPING: map<string, Op> := map[
    "$and" := OP_AND, "$or" := OP_OR, "$not" := OP_NOT,
    "$eq" := OP_EQ, "$notEq" := OP_NOT_EQ,
    "$gt" := OP_GT, "$gte" := OP_GTE, "$lt" := OP_LT, "$lte" := OP_LTE]

  /** The registry: operator to symbol, and symbol back to operator. */
  datatype Builder = Builder(operators: map<Op, string>, revOperators: map<string, Op>)

  /** The reverse table holds exactly the symbols in use, and each symbol leads
      back to an operator that carries it. */
  predicate Valid(b: Builder) {
    && b.revOperators.Keys == b.operators.Values
    && forall s :: s in b.revOperators ==>
         b.revOperators[s] in b.operators && b.operators[b.revOperators[s]] == s
  }

  predicate Injective(m: map<Op, string>) {
    forall k1, k2 :: k1 in m && k2 in m && k1 != k2 ==> m[k1] != m[k2]
  }

  function DefaultBuilder(): Builder {
    Builder(DEFAULT_OP_MAPPING, DEFAULT_REV_MAPPING)
  }

  lemma DefaultsAreSelfNamed()
    ensures forall k :: k in DEFAULT_OP_MAPPING ==> DEFAULT_OP_MAPPING[k] == k
    ensures DEFAULT_OP_MAPPING.Values == DEFAULT_REV_MAPPING.Keys
    ensures forall s :: s in DEFAULT_REV_MAPPING ==> DEFAULT_REV_MAPPING[s] == s
  {
    assert DEFAULT_OP_MAPPING.Keys == DEFAULT_REV_MAPPING.Keys;
  }

  /** One `for k, v := range src { ops[k] = v }` loop: every entry of `src` is
      written over `dst`, in whatever order the map is visited. */
  method CopyInto(dst: map<Op, string>, src: map<Op, string>) returns (ops: map<Op, string>)
    ensures ops == dst + src
  {
    ops := dst;
    var todo := src.Keys;
    while todo != {}
      invariant todo <= src.Keys
      invariant ops.Keys == dst.Keys + (src.Keys - todo)
      invariant forall k :: k in ops ==>
                  ops[k] == if k in src.Keys - todo then src[k] else dst[k]
      decreases |todo|
    {
      var k :| k in todo;
      ops := ops[k := src[k]];
      todo := todo - {k};
    }
  }

  /** The `for k, v := range ops { revOps[v] = k }` loop: every symbol in use
      maps back to one of the operators carrying it. */
  method Invert(ops: map<Op, string>) returns (revOps: map<string, Op>)
    ensures revOps.Keys == ops.Values
    ensures forall s :: s in revOps ==> revOps[s] in ops && ops[revOps[s]] == s
  {
    revOps := map[];
    var todo := ops.Keys;
    while todo != {}
      invariant todo <= ops.Keys
      invariant revOps.Keys == set k | k in ops.Keys - todo :: ops[k]
      invariant forall s :: s in revOps ==> revOps[s] in ops.Keys - todo && ops[revOps[s]] == s
      decreases |todo|
    {
      var k :| k in todo;
      revOps := revOps[ops[k] := k];
      todo := todo - {k};
    }
    assert revOps.Keys == ops.Values by {
      forall s | s in ops.Values ensures s in revOps.Keys {
        var k :| k in ops && ops[k] == s;
        assert k in ops.Keys - {};
      }
    }
  }

  /** On an injective table the inversion is determined: each symbol leads
      back to the only operator carrying it. */
  lemma InvertInjective(b: Builder)
    requires Valid(b) && Injective(b.operators)
    ensures forall op :: op in b.operators ==> b.revOperators[b.operators[op]] == op
  {
    forall op | op in b.operators
      ensures b.revOperators[b.operators[op]] == op
    {
      var s := b.operators[op];
      assert s in b.operators.Values;
    }
  }

  /** Copying a table into an empty one and applying no overrides gives it back. */
  lemma EmptyUnion(m: map<Op, string>)
    ensures map[] + m + map[] == m
  {
    assert (map[] + m + map[]).Keys == m.Keys;
  }

  /** The reverse table of the defaults is the one written out above. */
  lemma DefaultInversion(ops: map<Op, string>, rev: map<string, Op>)
    requires ops == DEFAULT_OP_MAPPING
    requires Valid(Builder(ops, rev))
    ensures Builder(ops, rev) == DefaultBuilder()
  {
    DefaultsAreSelfNamed();
    forall s | s in rev ensures rev[s] == s {
      assert DEFAULT_OP_MAPPING[rev[s]] == s;
    }
  }

  /** `New`: copy the defaults, apply the overrides, then invert. Go visits the
      three maps in an unspecified order, so each loop picks its next key
      arbitrarily; when two operators share a symbol the one the reverse table
      keeps is left open. The error result is always empty. */
  method New(overrides: map<string, string>) returns (b: Builder, err: Option<Error>)
    ensures err == None
    ensures b.operators == DEFAULT_OP_MAPPING + overrides
    ensures Valid(b)
    ensures Injective(b.operators) ==>
              forall op :: op in b.operators ==> b.revOperators[b.operators[op]] == op
    ensures overrides == map[] ==> b == DefaultBuilder()
  {
    var ops := CopyInto(map[], DEFAULT_OP_MAPPING);
    ops := CopyInto(ops, overrides);
    var revOps := Invert(ops);
    b := Builder(ops, revOps);
    err := None;
    if Injective(b.operators) {
      InvertInjective(b);
    }
    if overrides == map[] {
      EmptyUnion(DEFAULT_OP_MAPPING);
      DefaultInversion(ops, revOps);
    }
  }

  /** `toOperator`: look a symbol up in the reverse table. */
  function ToOperator(b: Builder, s: string): (r: Result<Op>)
    ensures r.Ok? <==> s in b.revOperators
    ensures r.Ok? ==> r.value == b.revOperators[s]
    ensures r.Err? ==> r.error == NotOperator(s)
  {
    if s in b.revOperators then Ok(b.revOperators[s]) else Err(NotOperator(s))
  }

  /** On a registry built by `New` without collisions, looking up an operator's
      own symbol gives the operator back. */
  lemma ToOperatorInvertsSymbol(b: Builder, op: Op)
    requires Valid(b) && Injective(b.operators) && op in b.operators
    ensures ToOperator(b, b.operators[op]) == Ok(op)
  {
    var s := b.operators[op];
    assert s in b.operators.Values;
    var k := b.revOperators[s];
    assert b.operators[k] == s;
  }

  /** With no overrides the registry knows exactly the nine `$` symbols, each
      naming the operator of the same name. */
  lemma DefaultToOperator(s: string)
    ensures ToOperator(DefaultBuilder(), s).Ok? <==> s in DEFAULT_OP_MAPPING.Values
    ensures ToOperator(DefaultBuilder(), s).Ok? ==> ToOperator(DefaultBuilder(), s).value == s
  {
    DefaultsAreSelfNamed();
  }

  /** `isOperator`: scan the forward table for the symbol. */
  method IsOperator(b: Builder, op: string) returns (r: bool)
    ensures r <==> op in b.operators.Values
  {
    var todo := b.operators.Keys;
    while todo != {}
      invariant todo <= b.operators.Keys
      invariant forall k :: k in b.operators.Keys - todo ==> b.operators[k] != op
      decreases |todo|
    {
      var k :| k in todo;
      if b.operators[k] == op {
        return true;
      }
      todo := todo - {k};
    }
    return false;
  }

  /** On a valid registry the two lookups agree. */
  lemma IsOperatorAgreesWithToOperator(b: Builder, s: string)
    requires Valid(b)
    ensures s in b.operators.Values <==> ToOperator(b, s).Ok?
  {
  }

  /** The squirrel comparison type `wrapOp` uses for an operator, if any. */
  function CmpKindOf(op: Op): Option<CmpKind> {
    if op == OP_EQ then Some(Eq)
    else if op == OP_NOT_EQ then Some(NotEq)
    else if op == OP_GT then Some(Gt)
    else if op == OP_GTE then Some(GtOrEq)
    else if op == OP_LT then Some(Lt)
    else if op == OP_LTE then Some(LtOrEq)
    else None
  }

  /** One comparison of the given kind per entry, key and value unchanged. */
  function Leaves(kind: CmpKind, m: Fields): (r: seq<Pred>)
    ensures |r| == |m|
    ensures forall i :: 0 <= i < |m| ==> r[i] == Leaf(kind, m[i].0, m[i].1)
  {
    if m == [] then [] else [Leaf(kind, m[0].0, m[0].1)] + Leaves(kind, m[1..])
  }

  /** What `wrapOp` returns. */
  function Wrapped(op: Op, m: Fields): (r: Result<seq<Pred>>)
    ensures r.Ok? <==> CmpKindOf(op).Some?
    ensures r.Err? ==> r.error == InvalidOp
    ensures r.Ok? ==> r.value == Leaves(CmpKindOf(op).value, m)
  {
    match CmpKindOf(op)
    case None => Err(InvalidOp)
    case Some(kind) => Ok(Leaves(kind, m))
  }

  /** `wrapOp`: the six comparison cases share one loop over the entries. */
  method WrapOp(op: Op, m: Fields) returns (r: Result<seq<Pred>>)
    ensures r == Wrapped(op, m)
  {
    var kind := CmpKindOf(op);
    if kind.None? {
      return Err(InvalidOp);
    }
    var conds: seq<Pred> := [];
    var i := 0;
    while i < |m|
      invariant 0 <= i <= |m|
      invariant conds == Leaves(kind.value, m[..i])
    {
      conds := conds + [Leaf(kind.value, m[i].0, m[i].1)];
      i := i + 1;
    }
    assert m[..i] == m;
    r := Ok(conds);
  }

  /** The entries of a map whose keys are all strings, as `map[string]interface{}`. */
  function StrFields(es: seq<Entry>): (fs: Fields)
    requires AllStrKeys(es)
    ensures |fs| == |es|
    ensures forall i :: 0 <= i < |es| ==> fs[i] == (es[i].key.name, es[i].val)
  {
    seq(|es|, i requires 0 <= i < |es| => (es[i].key.name, es[i].val))
  }

  lemma StrFieldsSize(es: seq<Entry>)
    requires AllStrKeys(es)
    ensures FieldsSize(StrFields(es)) == EntriesSize(es)
  {
    if es != [] {
      assert StrFields(es)[1..] == StrFields(es[1..]);
      StrFieldsSize(es[1..]);
    }
  }

  lemma SingletonSize(key: Key, v: Value)
    ensures Size(MapV([Entry(key, v)])) == 1 + Size(v)
  {
    assert [Entry(key, v)][1..] == [];
    assert EntriesSize([Entry(key, v)]) == Size(v) + EntriesSize([]);
  }

  // ---------------------------------------------------------------------
  // The legacy walker, as specification functions.
  // ---------------------------------------------------------------------

  /** `Builder.parseWhere`: map values go to `parseOp` under an operator key and
      to `parseVal` otherwise; structs are dropped; any other value, under any
      key, is an equality. Everything is appended to one flat list. */
  function WhereList(b: Builder, where: Fields): Result<seq<Pred>>
    decreases FieldsSize(where), 6
  {
    if where == [] then Ok([])
    else
      var k := where[0].0;
      var v := where[0].1;
      match v
      case MapV(_) =>
        var cond := match ToOperator(b, k)
                    case Ok(op) => OpList(b, op, v)
                    case Err(_) => ValList(b, k, v);
        (match cond
         case Err(e) => Err(e)
         case Ok(cs) => Then(cs, WhereList(b, where[1..])))
      case Struct => WhereList(b, where[1..])
      case _ => Then([Leaf(Eq, k, v)], WhereList(b, where[1..]))
  }

  /** `Builder.parseOp`: `$and` and `$or` both return the flattened list. */
  function OpList(b: Builder, op: Op, operand: Value): Result<seq<Pred>>
    decreases Size(operand), 3
  {
    if op == OP_AND || op == OP_OR then MultipleList(b, operand)
    else if op == OP_NOT then Err(NegationUnimplemented)
    else PairList(op, operand)
  }

  /** `Builder.parseMultiple` */
  function MultipleList(b: Builder, operand: Value): Result<seq<Pred>>
    decreases Size(operand), 2
  {
    match operand
    case ListV(xs) => ItemsList(b, xs)
    case _ => Err(InvalidOperand)
  }

  function ItemsList(b: Builder, xs: seq<Value>): Result<seq<Pred>>
    decreases ItemsSize(xs), 1
  {
    if xs == [] then Ok([])
    else
      match ElemList(b, xs[0])
      case Err(e) => Err(e)
      case Ok(cs) => Then(cs, ItemsList(b, xs[1..]))
  }

  /** `Builder.parseElem` */
  function ElemList(b: Builder, elem: Value): Result<seq<Pred>>
    decreases Size(elem), 0
  {
    match elem
    case MapV(es) =>
      if AllStrKeys(es) then
        StrFieldsSize(es);
        WhereList(b, StrFields(es))
      else Err(KeyMustBeString)
    case _ => Err(ElemUnimplemented)
  }

  /** `Builder.parseKeyValuePair`: keys are used as they are. */
  function PairList(op: Op, elem: Value): Result<seq<Pred>> {
    match elem
    case MapV(es) => if AllStrKeys(es) then Wrapped(op, StrFields(es)) else Err(KeyMustBeString)
    case _ => Err(InvalidOperand)
  }

  /** `Builder.parseVal` */
  function ValList(b: Builder, key: string, where: Value): Result<seq<Pred>>
    decreases Size(where), 5
  {
    match where
    case MapV(es) => ValEntryList(b, key, es)
    case _ => Err(InvalidOperand)
  }

  function ValEntryList(b: Builder, key: string, es: seq<Entry>): Result<seq<Pred>>
    decreases 1 + EntriesSize(es), 4
  {
    if es == [] then Ok([])
    else if !es[0].key.StrKey? then Err(InvalidKeyType)
    else
      match ToOperator(b, es[0].key.name)
      case Err(e) => Err(e)
      case Ok(op) =>
        SingletonSize(StrKey(key), es[0].val);
        match OpList(b, op, MapV([Entry(StrKey(key), es[0].val)]))
        case Err(e) => Err(e)
        case Ok(parts) => Then(parts, ValEntryList(b, key, es[1..]))
  }

  // ---------------------------------------------------------------------
  // The legacy walker, as the source writes it.
  // ---------------------------------------------------------------------

  method ParseWhere(b: Builder, where: Fields) returns (r: Result<seq<Pred>>)
    decreases FieldsSize(where), 6
    ensures r == WhereList(b, where)
  {
    var conds: seq<Pred> := [];
    var i := 0;
    assert where[i..] == where;
    ThenNothing(WhereList(b, where));
    while i < |where|
      invariant 0 <= i <= |where|
      invariant FieldsSize(where[i..]) <= FieldsSize(where)
      invariant WhereList(b, where) == Then(conds, WhereList(b, where[i..]))
    {
      var k := where[i].0;
      var v := where[i].1;
      assert where[i..][0] == where[i] && where[i..][1..] == where[i + 1..];
      match v {
        case MapV(_) =>
          var cond: Result<seq<Pred>>;
          var op := ToOperator(b, k);
          if op.Ok? {
            cond := ParseOp(b, op.value, v);
          } else {
            cond := ParseVal(b, k, v);
          }
          if cond.Err? {
            assert WhereList(b, where[i..]) == Err(cond.error);
            return Err(cond.error);
          }
          ThenThen(conds, cond.value, WhereList(b, where[i + 1..]));
          conds := conds + cond.value;
        case Struct =>
        case _ =>
          ThenThen(conds, [Leaf(Eq, k, v)], WhereList(b, where[i + 1..]));
          conds := conds + [Leaf(Eq, k, v)];
      }
      i := i + 1;
    }
    assert WhereList(b, where[i..]) == Ok([]);
    assert conds + [] == conds;
    r := Ok(conds);
  }

  method ParseOp(b: Builder, op: Op, operand: Value) returns (r: Result<seq<Pred>>)
    decreases Size(operand), 3
    ensures r == OpList(b, op, operand)
  {
    if op == OP_AND {
      r := ParseMultiple(b, operand);
    } else if op == OP_OR {
      r := ParseMultiple(b, operand);
    } else if op == OP_NOT {
      r := Err(NegationUnimplemented);
    } else {
      r := ParseKeyValuePair(op, operand);
    }
  }

  method ParseMultiple(b: Builder, operand: Value) returns (r: Result<seq<Pred>>)
    decreases Size(operand), 2
    ensures r == MultipleList(b, operand)
  {
    if !operand.ListV? {
      return Err(InvalidOperand);
    }
    var xs := operand.items;
    var conds: seq<Pred> := [];
    var i := 0;
    assert xs[i..] == xs;
    ThenNothing(ItemsList(b, xs));
    while i < |xs|
      invariant 0 <= i <= |xs|
      invariant ItemsSize(xs[i..]) <= ItemsSize(xs)
      invariant ItemsList(b, xs) == Then(conds, ItemsList(b, xs[i..]))
    {
      assert xs[i..][0] == xs[i] && xs[i..][1..] == xs[i + 1..];
      var cond := ParseElem(b, xs[i]);
      if cond.Err? {
        assert ItemsList(b, xs[i..]) == Err(cond.error);
        return Err(cond.error);
      }
      ThenThen(conds, cond.value, ItemsList(b, xs[i + 1..]));
      conds := conds + cond.value;
      i := i + 1;
    }
    assert ItemsList(b, xs[i..]) == Ok([]);
    assert conds + [] == conds;
    r := Ok(conds);
  }

  method ParseElem(b: Builder, elem: Value) returns (r: Result<seq<Pred>>)
    decreases Size(elem), 0
    ensures r == ElemList(b, elem)
  {
    if !elem.MapV? {
      return Err(ElemUnimplemented);
    }
    var es := elem.entries;
    var m: Fields := [];
    var i := 0;
    while i < |es|
      invariant 0 <= i <= |es|
      invariant AllStrKeys(es[..i])
      invariant m == StrFields(es[..i])
    {
      if !es[i].key.StrKey? {
        return Err(KeyMustBeString);
      }
      m := m + [(es[i].key.name, es[i].val)];
      i := i + 1;
    }
    assert es[..i] == es;
    StrFieldsSize(es);
    r := ParseWhere(b, m);
  }

  method ParseKeyValuePair(op: Op, elem: Value) returns (r: Result<seq<Pred>>)
    ensures r == PairList(op, elem)
  {
    if !elem.MapV? {
      return Err(InvalidOperand);
    }
    var es := elem.entries;
    var m: Fields := [];
    var i := 0;
    while i < |es|
      invariant 0 <= i <= |es|
      invariant AllStrKeys(es[..i])
      invariant m == StrFields(es[..i])
    {
      if !es[i].key.StrKey? {
        return Err(KeyMustBeString);
      }
      m := m + [(es[i].key.name, es[i].val)];
      i := i + 1;
    }
    assert es[..i] == es;
    r := WrapOp(op, m);
  }

  method ParseVal(b: Builder, key: string, where: Value) returns (r: Result<seq<Pred>>)
    decreases Size(where), 5
    ensures r == ValList(b, key, where)
  {
    if !where.MapV? {
      return Err(InvalidOperand);
    }
    var es := where.entries;
    var conds: seq<Pred> := [];
    var i := 0;
    assert es[i..] == es;
    ThenNothing(ValEntryList(b, key, es));
    while i < |es|
      invariant 0 <= i <= |es|
      invariant EntriesSize(es[i..]) <= EntriesSize(es)
      invariant ValEntryList(b, key, es) == Then(conds, ValEntryList(b, key, es[i..]))
    {
      assert es[i..][0] == es[i] && es[i..][1..] == es[i + 1..];
      if !es[i].key.StrKey? {
        assert ValEntryList(b, key, es[i..]) == Err(InvalidKeyType);
        return Err(InvalidKeyType);
      }
      var op := ToOperator(b, es[i].key.name);
      if op.Err? {
        assert ValEntryList(b, key, es[i..]) == Err(op.error);
        return Err(op.error);
      }
      SingletonSize(StrKey(key), es[i].val);
      var parts := ParseOp(b, op.value, MapV([Entry(StrKey(key), es[i].val)]));
      if parts.Err? {
        assert ValEntryList(b, key, es[i..]) == Err(parts.error);
        return Err(parts.error);
      }
      ThenThen(conds, parts.value, ValEntryList(b, key, es[i + 1..]));
      conds := conds + parts.value;
      i := i + 1;
    }
    assert ValEntryList(b, key, es[i..]) == Ok([]);
    assert conds + [] == conds;
    r := Ok(conds);
  }

  // ---------------------------------------------------------------------
  // Build
  // ---------------------------------------------------------------------

  /** A Go `uint`, 64 bits wide. */
  newtype uint64 = x: int | 0 <= x < 0x1_0000_0000_0000_0000

  /** The query a client sends. `Build` reads only `from` and `where`. */
  datatype Filter = Filter(
    from: string,
    where: Fields,
    attributes: seq<string>,
    includes: seq<Fields>,
    order: seq<Fields>,
    offset: uint64,
    limit: uint64)

  /** `Build`: compile the filter's `where` with the legacy walker and add each
      comparison to `SELECT * FROM <from>`; an error in the walker is returned
      and no query is built. */
  method Build(b: Builder, filter: Filter) returns (r: Result<Select>)
    ensures WhereList(b, filter.where).Err? ==> r == Err(WhereList(b, filter.where).error)
    ensures WhereList(b, filter.where).Ok? ==>
              r == Ok(Select(["*"], filter.from, [], WhereList(b, filter.where).value))
    ensures r.Ok? ==> forall i :: 0 <= i < |r.value.wheres| ==> r.value.wheres[i].Leaf?
  {
    var wheres := ParseWhere(b, filter.where);
    if wheres.Err? {
      return Err(wheres.error);
    }
    WhereListFlat(b, filter.where);
    var bs := Select(["*"], filter.from, [], []);
    var i := 0;
    while i < |wheres.value|
      invariant 0 <= i <= |wheres.value|
      invariant bs == Select(["*"], filter.from, [], wheres.value[..i])
    {
      bs := bs.(wheres := bs.wheres + [wheres.value[i]]);
      i := i + 1;
    }
    assert wheres.value[..i] == wheres.value;
    r := Ok(bs);
  }

  // ---------------------------------------------------------------------
  // Properties of the legacy walker
  // ---------------------------------------------------------------------

  predicate AllLeaves(cs: seq<Pred>) {
    forall i :: 0 <= i < |cs| ==> cs[i].Leaf?
  }

  /** A successful result holds comparisons only: no `And`/`Or` node survives. */
  predicate FlatResult(r: Result<seq<Pred>>) {
    r.Ok? ==> AllLeaves(r.value)
  }

  lemma ThenFlat(a: seq<Pred>, rest: Result<seq<Pred>>)
    requires AllLeaves(a) && FlatResult(rest)
    ensures FlatResult(Then(a, rest))
  {
  }

  /** The legacy walker flattens: whatever the nesting of `$and`/`$or` lists,
      the result is one list of comparisons. */
  lemma {:induction false} WhereListFlat(b: Builder, where: Fields)
    ensures FlatResult(WhereList(b, where))
    decreases FieldsSize(where), 6
  {
    if where != [] {
      var k := where[0].0;
      var v := where[0].1;
      WhereListFlat(b, where[1..]);
      if v.MapV? {
        match ToOperator(b, k)
        case Ok(op) => OpListFlat(b, op, v);
        case Err(_) => ValListFlat(b, k, v);
      }
    }
  }

  lemma {:induction false} OpListFlat(b: Builder, op: Op, operand: Value)
    ensures FlatResult(OpList(b, op, operand))
    decreases Size(operand), 3
  {
    if op == OP_AND || op == OP_OR {
      MultipleListFlat(b, operand);
    }
  }

  lemma {:induction false} MultipleListFlat(b: Builder, operand: Value)
    ensures FlatResult(MultipleList(b, operand))
    decreases Size(operand), 2
  {
    if operand.ListV? {
      ItemsListFlat(b, operand.items);
    }
  }

  lemma {:induction false} ItemsListFlat(b: Builder, xs: seq<Value>)
    ensures FlatResult(ItemsList(b, xs))
    decreases ItemsSize(xs), 1
  {
    if xs != [] {
      ElemListFlat(b, xs[0]);
      ItemsListFlat(b, xs[1..]);
    }
  }

  lemma {:induction false} ElemListFlat(b: Builder, elem: Value)
    ensures FlatResult(ElemList(b, elem))
    decreases Size(elem), 0
  {
    if elem.MapV? && AllStrKeys(elem.entries) {
      StrFieldsSize(elem.entries);
      WhereListFlat(b, StrFields(elem.entries));
    }
  }

  lemma {:induction false} ValListFlat(b: Builder, key: string, where: Value)
    ensures FlatResult(ValList(b, key, where))
    decreases Size(where), 5
  {
    if where.MapV? {
      ValEntryListFlat(b, key, where.entries);
    }
  }

  lemma {:induction false} ValEntryListFlat(b: Builder, key: string, es: seq<Entry>)
    ensures FlatResult(ValEntryList(b, key, es))
    decreases 1 + EntriesSize(es), 4
  {
    if es != [] && es[0].key.StrKey? && ToOperator(b, es[0].key.name).Ok? {
      SingletonSize(StrKey(key), es[0].val);
      OpListFlat(b, ToOperator(b, es[0].key.name).value, MapV([Entry(StrKey(key), es[0].val)]));
      ValEntryListFlat(b, key, es[1..]);
    }
  }

  /** `$or` is compiled exactly like `$and`: the `sq.Or` tag is lost when the
      list is returned as `[]sq.Sqlizer`. */
  lemma OrCompiledAsAnd(b: Builder, operand: Value)
    ensures OpList(b, OP_OR, operand) == OpList(b, OP_AND, operand)
  {
  }

  /** A map whose values are neither maps nor structs compiles to one equality
      per entry, in map order, with the keys unchanged, whatever the keys are:
      an operator symbol over a list or a scalar is an equality too. */
  lemma {:induction false} ScalarFields(b: Builder, where: Fields)
    requires forall i :: 0 <= i < |where| ==> !where[i].1.MapV? && where[i].1 != Struct
    ensures WhereList(b, where) == Ok(Leaves(Eq, where))
  {
    if where != [] {
      ScalarFields(b, where[1..]);
    }
  }

  /** The entries of a map without its struct-valued ones, in order. */
  function WithoutStructs(where: Fields): (r: Fields)
    ensures |r| <= |where|
    ensures forall i :: 0 <= i < |r| ==> r[i] in where && r[i].1 != Struct
    ensures forall i :: 0 <= i < |where| && where[i].1 != Struct ==> where[i] in r
  {
    if where == [] then []
    else if where[0].1 == Struct then WithoutStructs(where[1..])
    else [where[0]] + WithoutStructs(where[1..])
  }

  /** A struct value contributes nothing, wherever it sits in the map: the
      map compiles exactly as the map with its struct entries removed. */
  lemma {:induction false} StructsDropped(b: Builder, where: Fields)
    ensures WhereList(b, where) == WhereList(b, WithoutStructs(where))
  {
    if where != [] {
      StructsDropped(b, where[1..]);
      if where[0].1 != Struct {
        var w := WithoutStructs(where);
        assert w[0] == where[0] && w[1..] == WithoutStructs(where[1..]);
      }
    }
  }

  /** An operator key over a list is not compiled as an operator: only map
      values are dispatched on their key, so `{"$and": [...]}` is the
      equality of a column named `$and` with the list. */
  lemma OperatorKeyOverList(b: Builder, op: string, xs: seq<Value>)
    ensures WhereList(b, [(op, ListV(xs))]) == Ok([Leaf(Eq, op, ListV(xs))])
  {
    var where := [(op, ListV(xs))];
    ScalarFields(b, where);
    var leaves := Leaves(Eq, where);
    assert leaves == [Leaf(Eq, op, ListV(xs))] by {
      assert |leaves| == 1 && leaves[0] == Leaf(Eq, op, ListV(xs));
    }
  }

  /** `key: {op: value, ...}` compiles only if every inner key is a string
      and a registered operator symbol. */
  lemma {:induction false} ValEntryListNeedsOperators(b: Builder, key: string, es: seq<Entry>)
    ensures ValEntryList(b, key, es).Ok? ==>
              forall i :: 0 <= i < |es| ==> es[i].key.StrKey? && ToOperator(b, es[i].key.name).Ok?
    ensures es != [] && !es[0].key.StrKey? ==> ValEntryList(b, key, es) == Err(InvalidKeyType)
    ensures es != [] && es[0].key.StrKey? && ToOperator(b, es[0].key.name).Err? ==>
              ValEntryList(b, key, es) == Err(NotOperator(es[0].key.name))
    decreases |es|
  {
    if es != [] {
      ValEntryListNeedsOperators(b, key, es[1..]);
      assert forall i :: 1 <= i < |es| ==> es[1..][i - 1] == es[i];
    }
  }

  /** The comparison kind of a symbol that names one of the six comparison
      operators in the registry. */
  predicate IsCmpSymbol(b: Builder, k: Key) {
    k.StrKey? && ToOperator(b, k.name).Ok? && CmpKindOf(ToOperator(b, k.name).value).Some?
  }

  function CmpOfSymbol(b: Builder, k: Key): CmpKind
    requires IsCmpSymbol(b, k)
  {
    CmpKindOf(ToOperator(b, k.name).value).value
  }

  /** One `op: value` entry under a field, with a comparison operator,
      becomes the comparison of the field with the value. */
  lemma SingleComparison(b: Builder, op: Op, key: string, v: Value)
    requires CmpKindOf(op).Some?
    ensures OpList(b, op, MapV([Entry(StrKey(key), v)])) == Ok([Leaf(CmpKindOf(op).value, key, v)])
  {
    assert op != OP_AND && op != OP_OR && op != OP_NOT by {
      assert op[..2] == OP_EQ[..2] || op[..2] == OP_NOT_EQ[..2] || op[..2] == OP_GT[..2] || op[..2] == OP_LT[..2];
    }
    assert AllStrKeys([Entry(StrKey(key), v)]);
    assert StrFields([Entry(StrKey(key), v)]) == [(key, v)];
    var leaves := Leaves(CmpKindOf(op).value, [(key, v)]);
    assert leaves == [Leaf(CmpKindOf(op).value, key, v)] by {
      assert |leaves| == 1 && leaves[0] == Leaf(CmpKindOf(op).value, key, v);
    }
  }

  /** `key: {op: value, ...}` with comparison operators only: one comparison
      of `key` per entry, in map order. */
  lemma {:induction false} FieldOperators(b: Builder, key: string, es: seq<Entry>)
    requires forall i :: 0 <= i < |es| ==> IsCmpSymbol(b, es[i].key)
    ensures ValEntryList(b, key, es).Ok?
    ensures |ValEntryList(b, key, es).value| == |es|
    ensures forall i :: 0 <= i < |es| ==>
              ValEntryList(b, key, es).value[i] == Leaf(CmpOfSymbol(b, es[i].key), key, es[i].val)
    decreases |es|
  {
    if es != [] {
      assert IsCmpSymbol(b, es[0].key);
      SingleComparison(b, ToOperator(b, es[0].key.name).value, key, es[0].val);
      FieldOperators(b, key, es[1..]);
      var rest := ValEntryList(b, key, es[1..]).value;
      assert ValEntryList(b, key, es).value == [Leaf(CmpOfSymbol(b, es[0].key), key, es[0].val)] + rest;
      forall i | 1 <= i < |es|
        ensures ValEntryList(b, key, es).value[i] == Leaf(CmpOfSymbol(b, es[i].key), key, es[i].val)
      {
        assert es[1..][i - 1] == es[i];
      }
    }
  }

  /** One comparison written field-outer, `{field: {op: v}}`, or
      operator-outer, `{op: {field: v}}`, gives the same single comparison. */
  lemma NestingOrdersAgree(b: Builder, field: string, sym: string, v: Value)
    requires ToOperator(b, field).Err?
    requires IsCmpSymbol(b, StrKey(sym))
    ensures WhereList(b, [(field, MapV([Entry(StrKey(sym), v)]))])
            == WhereList(b, [(sym, MapV([Entry(StrKey(field), v)]))])
    ensures WhereList(b, [(field, MapV([Entry(StrKey(sym), v)]))])
            == Ok([Leaf(CmpOfSymbol(b, StrKey(sym)), field, v)])
  {
    var es := [Entry(StrKey(sym), v)];
    var leaf := Leaf(CmpOfSymbol(b, StrKey(sym)), field, v);
    assert IsCmpSymbol(b, es[0].key);
    FieldOperators(b, field, es);
    var conds := ValEntryList(b, field, es).value;
    assert |conds| == 1 && conds[0] == leaf;
    assert conds == [leaf];
    SingleComparison(b, ToOperator(b, sym).value, field, v);
    assert [(field, MapV(es))][1..] == [];
    assert [(sym, MapV([Entry(StrKey(field), v)]))][1..] == [];
    assert [leaf] + [] == [leaf];
  }

  /** The plain form `{field: v}` is shorthand for `{"$eq": {field: v}}`. */
  lemma EqualityShorthand(b: Builder, field: string, eqSym: string, v: Value)
    requires ToOperator(b, eqSym) == Ok(OP_EQ)
    requires !v.MapV? && v != Struct
    ensures WhereList(b, [(field, v)]) == WhereList(b, [(eqSym, MapV([Entry(StrKey(field), v)]))])
  {
    SingleComparison(b, OP_EQ, field, v);
    assert [(field, v)][1..] == [];
    assert [(eqSym, MapV([Entry(StrKey(field), v)]))][1..] == [];
    assert [Leaf(Eq, field, v)] + [] == [Leaf(Eq, field, v)];
  }

  /** Unlike the context compiler, the walker flattens: an operator over two
      fields, `{op: {a: v1, c: v2}}`, gives the same list as the two
      field-outer entries `{a: {op: v1}, c: {op: v2}}`. */
  lemma GroupedOperatorFlattens(b: Builder, sym: string, a: string, c: string, v1: Value, v2: Value)
    requires IsCmpSymbol(b, StrKey(sym))
    requires ToOperator(b, a).Err? && ToOperator(b, c).Err?
    ensures WhereList(b, [(sym, MapV([Entry(StrKey(a), v1), Entry(StrKey(c), v2)]))])
            == WhereList(b, [(a, MapV([Entry(StrKey(sym), v1)])), (c, MapV([Entry(StrKey(sym), v2)]))])
    ensures WhereList(b, [(sym, MapV([Entry(StrKey(a), v1), Entry(StrKey(c), v2)]))])
            == Ok([Leaf(CmpOfSymbol(b, StrKey(sym)), a, v1), Leaf(CmpOfSymbol(b, StrKey(sym)), c, v2)])
  {
    var k := CmpOfSymbol(b, StrKey(sym));
    var op := ToOperator(b, sym).value;
    var expected := [Leaf(k, a, v1), Leaf(k, c, v2)];
    assert op != OP_AND && op != OP_OR && op != OP_NOT by {
      assert op[..2] == OP_EQ[..2] || op[..2] == OP_NOT_EQ[..2] || op[..2] == OP_GT[..2] || op[..2] == OP_LT[..2];
    }
    var inner := [Entry(StrKey(a), v1), Entry(StrKey(c), v2)];
    assert AllStrKeys(inner);
    var fs := StrFields(inner);
    assert fs == [(a, v1), (c, v2)];
    assert Leaves(k, fs) == expected;
    assert OpList(b, op, MapV(inner)) == Ok(expected);
    assert [(sym, MapV(inner))][1..] == [];
    assert expected + [] == expected;

    var split := [(a, MapV([Entry(StrKey(sym), v1)])), (c, MapV([Entry(StrKey(sym), v2)]))];
    NestingOrdersAgree(b, a, sym, v1);
    NestingOrdersAgree(b, c, sym, v2);
    assert split[1..] == [(c, MapV([Entry(StrKey(sym), v2)]))];
    assert WhereList(b, split[1..]) == Ok([Leaf(k, c, v2)]);
    assert ValList(b, a, split[0].1) == Ok([Leaf(k, a, v1)]) by {
      assert WhereList(b, [split[0]]) == Ok([Leaf(k, a, v1)]);
      assert [split[0]][1..] == [];
    }
    assert [Leaf(k, a, v1)] + [Leaf(k, c, v2)] == expected;
  }

  // ---------------------------------------------------------------------
  // The walker on the cases of goquery_test.go
  // ---------------------------------------------------------------------

  /** "simple value equal": five plain values, five equalities. */
  lemma SimpleValueEqualCase()
    ensures WhereList(DefaultBuilder(), [
              ("a", Scalar(StrLit("str_a"))), ("b", Scalar(StrLit("str_b"))),
              ("c", Scalar(IntLit(5))), ("d", Scalar(BoolLit(true))), ("e", Scalar(FloatLit("1.0")))])
            == Ok([
              Leaf(Eq, "a", Scalar(StrLit("str_a"))), Leaf(Eq, "b", Scalar(StrLit("str_b"))),
              Leaf(Eq, "c", Scalar(IntLit(5))), Leaf(Eq, "d", Scalar(BoolLit(true))),
              Leaf(Eq, "e", Scalar(FloatLit("1.0")))])
  {
    var where := [
      ("a", Scalar(StrLit("str_a"))), ("b", Scalar(StrLit("str_b"))),
      ("c", Scalar(IntLit(5))), ("d", Scalar(BoolLit(true))), ("e", Scalar(FloatLit("1.0")))];
    ScalarFields(DefaultBuilder(), where);
    var leaves := Leaves(Eq, where);
    assert leaves[0] == Leaf(Eq, "a", Scalar(StrLit("str_a")));
    assert leaves[1] == Leaf(Eq, "b", Scalar(StrLit("str_b")));
    assert leaves[2] == Leaf(Eq, "c", Scalar(IntLit(5)));
    assert leaves[3] == Leaf(Eq, "d", Scalar(BoolLit(true)));
    assert leaves[4] == Leaf(Eq, "e", Scalar(FloatLit("1.0")));
    assert leaves == [
      Leaf(Eq, "a", Scalar(StrLit("str_a"))), Leaf(Eq, "b", Scalar(StrLit("str_b"))),
      Leaf(Eq, "c", Scalar(IntLit(5))), Leaf(Eq, "d", Scalar(BoolLit(true))),
      Leaf(Eq, "e", Scalar(FloatLit("1.0")))];
  }

  /** "op: {key: value} syntax": `{"$gt": {"a": 1, "b": 2}}`. */
  lemma OperatorOuterCase()
    ensures WhereList(DefaultBuilder(), [("$gt", MapV([Entry(StrKey("a"), Scalar(IntLit(1))),
                                                       Entry(StrKey("b"), Scalar(IntLit(2)))]))])
            == Ok([Leaf(Gt, "a", Scalar(IntLit(1))), Leaf(Gt, "b", Scalar(IntLit(2)))])
  {
    var es := [Entry(StrKey("a"), Scalar(IntLit(1))), Entry(StrKey("b"), Scalar(IntLit(2)))];
    var where := [("$gt", MapV(es))];
    var expected := [Leaf(Gt, "a", Scalar(IntLit(1))), Leaf(Gt, "b", Scalar(IntLit(2)))];
    assert AllStrKeys(es);
    var fs := StrFields(es);
    assert fs == [("a", Scalar(IntLit(1))), ("b", Scalar(IntLit(2)))];
    assert Leaves(Gt, fs) == expected;
    DefaultToOperator("$gt");
    assert OpList(DefaultBuilder(), OP_GT, MapV(es)) == Ok(expected);
    assert where[1..] == [];
    assert expected + [] == expected;
  }

  /** "key: {op: value} syntax": `{"a": {"$gt": 1, "$lt": 2}}`. */
  lemma FieldOuterCase()
    ensures WhereList(DefaultBuilder(), [("a", MapV([Entry(StrKey("$gt"), Scalar(IntLit(1))),
                                                     Entry(StrKey("$lt"), Scalar(IntLit(2)))]))])
            == Ok([Leaf(Gt, "a", Scalar(IntLit(1))), Leaf(Lt, "a", Scalar(IntLit(2)))])
  {
    var es := [Entry(StrKey("$gt"), Scalar(IntLit(1))), Entry(StrKey("$lt"), Scalar(IntLit(2)))];
    var where := [("a", MapV(es))];
    var expected := [Leaf(Gt, "a", Scalar(IntLit(1))), Leaf(Lt, "a", Scalar(IntLit(2)))];
    DefaultToOperator("a");
    DefaultToOperator("$gt");
    DefaultToOperator("$lt");
    FieldOperators(DefaultBuilder(), "a", es);
    assert ValEntryList(DefaultBuilder(), "a", es).value == expected;
    assert where[1..] == [];
    assert expected + [] == expected;
  }

  /** "parse $and" and "parse $or": one map in a list, flattened. */
  lemma AndOrListCase(op: Op)
    requires op == OP_AND || op == OP_OR
    ensures OpList(Builder(map[], map[]), op,
                   ListV([MapV([Entry(StrKey("a"), Scalar(IntLit(1))), Entry(StrKey("b"), Scalar(IntLit(2)))])]))
            == Ok([Leaf(Eq, "a", Scalar(IntLit(1))), Leaf(Eq, "b", Scalar(IntLit(2)))])
  {
    var es := [Entry(StrKey("a"), Scalar(IntLit(1))), Entry(StrKey("b"), Scalar(IntLit(2)))];
    assert AllStrKeys(es);
    var fs := StrFields(es);
    assert fs == [("a", Scalar(IntLit(1))), ("b", Scalar(IntLit(2)))];
    ScalarFields(Builder(map[], map[]), fs);
    var expected := [Leaf(Eq, "a", Scalar(IntLit(1))), Leaf(Eq, "b", Scalar(IntLit(2)))];
    assert Leaves(Eq, fs) == expected;
    var xs := [MapV(es)];
    assert xs[1..] == [];
    assert expected + [] == expected;
  }
}
