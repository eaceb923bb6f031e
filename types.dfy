/** Values shared by every part of the filter compiler: the dynamically typed
    input (what Go sees through `reflect`), the predicate tree handed to the
    SQL builder, and the error kinds the compiler returns. */
module Types {

  /** A literal at a leaf of a filter. Literals are opaque: the compiler only
      distinguishes strings (attribute names, table names) from everything else. */
  datatype Lit = StrLit(s: string) | IntLit(i: int) | FloatLit(text: string) | BoolLit(b: bool) | NilLit

  /** A map key as `reflect` sees it: of kind string, or of any other kind. */
  datatype Key = StrKey(name: string) | OtherKey(lit: Lit)

  /** A dynamically typed filter value. `MapV` lists a Go map's entries in one of
      its iteration orders; Go arrays and slices both become `ListV`. */
  datatype Value =
    | Scalar(lit: Lit)
    | Struct
    | MapV(entries: seq<Entry>)
    | ListV(items: seq<Value>)

  datatype Entry = Entry(key: Key, val: Value)

  /** A `map[string]interface{}`: the keys are strings by their Go type. */
  type Fields = seq<(string, Value)>

  /** One squirrel comparison type each: Eq, NotEq, Gt, GtOrEq, Lt, LtOrEq. */
  datatype CmpKind = Eq | NotEq | Gt | GtOrEq | Lt | LtOrEq

  /** The predicate tree: a one-entry comparison map (`sq.Eq{field: operand}`),
      or an `sq.And` / `sq.Or` list of children. */
  datatype Pred =
    | Leaf(kind: CmpKind, field: string, operand: Value)
    | And(children: seq<Pred>)
    | Or(children: seq<Pred>)

  /** A join added to a select: `LeftJoin` prefixes the clause with
      `LEFT JOIN`, `JoinClause` uses it as written. */
  datatype Join = LeftJoin(clause: string) | JoinClause(clause: string)

  /** The parts of a squirrel `SelectBuilder` the compiler sets, in the order
      they were added. */
  datatype Select = Select(columns: seq<string>, from: string, joins: seq<Join>, wheres: seq<Pred>)

  /** The errors the source returns, one constructor per message text. */
  datatype Error =
    | KeyNotString         // "invalid syntax, key must be string"
    | ExpectRelationOp     // "invalid syntax, expect relation op"
    | InvalidSyntax        // "invalid syntax"
    | NegationUnimplemented  // "unimplementd" (the `$not` operator)
    | InvalidOperand       // "invalid operand"
    | KeyMustBeString      // "key must be string"
    | ElemUnimplemented    // "unimplemented" (a list element that is not a map)
    | InvalidKeyType       // "invalid key type"
    | NotOperator(symbol: string)  // "not operator: <symbol>"
    | InvalidOp            // "invalid op"
    | InvalidSyntaxFrom    // "invalid syntax from"

  datatype Result<T> = Ok(value: T) | Err(error: Error)

  datatype Option<T> = None | Some(value: T)

  /** Prepends the conditions already collected to a result still to come;
      an error in the rest discards them (no partial result is returned). */
  function Then(acc: seq<Pred>, rest: Result<seq<Pred>>): Result<seq<Pred>> {
    match rest
    case Ok(cs) => Ok(acc + cs)
    case Err(e) => Err(e)
  }

  lemma ThenThen(a: seq<Pred>, b: seq<Pred>, rest: Result<seq<Pred>>)
    ensures Then(a, Then(b, rest)) == Then(a + b, rest)
  {
    if rest.Ok? {
      assert a + (b + rest.value) == (a + b) + rest.value;
    }
  }

  lemma ThenNothing(rest: Result<seq<Pred>>)
    ensures Then([], rest) == rest
  {
    if rest.Ok? {
      assert [] + rest.value == rest.value;
    }
  }

  predicate AllStrKeys(es: seq<Entry>) {
    forall i :: 0 <= i < |es| ==> es[i].key.StrKey?
  }

  /** Number of nodes of a value: the termination measure of the compilers. */
  function Size(v: Value): nat {
    match v
    case MapV(es) => 1 + EntriesSize(es)
    case ListV(xs) => 1 + ItemsSize(xs)
    case _ => 1
  }

  function EntriesSize(es: seq<Entry>): nat {
    if es == [] then 0
    else
      assert es[0] in es && es[0].val < es[0];
      Size(es[0].val) + EntriesSize(es[1..])
  }

  function ItemsSize(xs: seq<Value>): nat {
    if xs == [] then 0 else Size(xs[0]) + ItemsSize(xs[1..])
  }

  function FieldsSize(fs: Fields): nat {
    if fs == [] then 0 else Size(fs[0].1) + FieldsSize(fs[1..])
  }
}
