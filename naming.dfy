/** The compiler's context and the way it writes names: quoting, qualified
    column names and the `FROM` table. */
module Naming {
  import opened Types
  import GoQuery

  /** `builderContext`: the registry, the quote string the names are wrapped
      in, the relation that joins sibling conditions, and the current table. */
  datatype Ctx = Ctx(builder: GoQuery.Builder, quote: string, rel: GoQuery.Op, tableName: string)

  /** `inherit`: the copy a nested compilation starts from. */
  function Inherit(ctx: Ctx): (r: Ctx)
    ensures r.builder == ctx.builder && r.quote == ctx.quote
    ensures r.rel == ctx.rel && r.tableName == ctx.tableName
  {
    ctx
  }

  /** `quote`: the name between two copies of the quote string, with no
      escaping of quote characters inside the name. */
  function Quote(ctx: Ctx, name: string): (r: string)
    ensures |r| == 2 * |ctx.quote| + |name|
    ensures r[..|ctx.quote|] == ctx.quote
    ensures r[|ctx.quote|..|ctx.quote| + |name|] == name
    ensures r[|ctx.quote| + |name|..] == ctx.quote
  {
    var q := ctx.quote;
    assert (q + name + q)[..|q|] == q;
    assert (q + name + q)[|q|..|q| + |name|] == name;
    assert (q + name + q)[|q| + |name|..] == q;
    q + name + q
  }

  /** What every column of table `t` starts with. */
  function TablePrefix(ctx: Ctx, t: string): string {
    Quote(ctx, t) + "."
  }

  /** `toFullName`: the quoted table, a dot, the quoted column. */
  function ToFullName(ctx: Ctx, t: string, c: string): (r: string)
    ensures |r| == |t| + |c| + 1 + 4 * |ctx.quote|
    ensures r == TablePrefix(ctx, t) + Quote(ctx, c)
    ensures TablePrefix(ctx, t) <= r
  {
    Quote(ctx, t) + "." + Quote(ctx, c)
  }

  /** With an empty quote string a full name is `table.column`. */
  lemma UnquotedFullName(ctx: Ctx, t: string, c: string)
    requires ctx.quote == ""
    ensures ToFullName(ctx, t, c) == t + "." + c
  {
    assert Quote(ctx, t) == t;
    assert Quote(ctx, c) == c;
  }

  /** The column can be read back from a full name: the characters after the
      table prefix and the opening quote, up to the closing quote. */
  lemma ColumnReadBack(ctx: Ctx, t: string, c: string)
    ensures var r := ToFullName(ctx, t, c);
            var from := |TablePrefix(ctx, t)| + |ctx.quote|;
            r[from..|r| - |ctx.quote|] == c
  {
    var r := ToFullName(ctx, t, c);
    var p := TablePrefix(ctx, t);
    var qc := Quote(ctx, c);
    assert r == p + qc;
    assert r[|p|..] == qc;
    assert r[|p| + |ctx.quote|..|r| - |ctx.quote|] == qc[|ctx.quote|..|ctx.quote| + |c|];
  }

  /** Within one table distinct columns get distinct full names, so qualifying
      the keys of a map never merges two entries. */
  lemma FullNameInjective(ctx: Ctx, t: string, c1: string, c2: string)
    requires ToFullName(ctx, t, c1) == ToFullName(ctx, t, c2)
    ensures c1 == c2
  {
    ColumnReadBack(ctx, t, c1);
    ColumnReadBack(ctx, t, c2);
  }

  /** Without quoting the full names of two different (table, column) pairs
      can coincide when a name holds a dot. */
  lemma FullNameAmbiguous(ctx: Ctx)
    requires ctx.quote == ""
    ensures ToFullName(ctx, "a.b", "c") == ToFullName(ctx, "a", "b.c")
  {
    UnquotedFullName(ctx, "a.b", "c");
    UnquotedFullName(ctx, "a", "b.c");
  }

  /** `buildFrom`: a string gives its quoted form and itself; anything else
      gives two empty strings and "invalid syntax from". */
  function BuildFrom(ctx: Ctx, from: Value): (r: (string, string, Option<Error>))
    ensures r.2.None? <==> from.Scalar? && from.lit.StrLit?
    ensures r.2.None? ==> r.1 == from.lit.s && r.0 == Quote(ctx, r.1)
    ensures r.2.Some? ==> r == ("", "", Some(InvalidSyntaxFrom))
  {
    match from
    case Scalar(StrLit(t)) => (Quote(ctx, t), t, None)
    case _ => ("", "", Some(InvalidSyntaxFrom))
  }

  /** The quoted table name of `buildFrom` unwraps back to the raw one. */
  lemma BuildFromUnquotes(ctx: Ctx, t: string)
    ensures var r := BuildFrom(ctx, Scalar(StrLit(t)));
            r.0[|ctx.quote|..|r.0| - |ctx.quote|] == r.1
  {
  }

  /** What `attrBuild` writes for one attribute: the full column name under
      the attribute's own quoted name. */
  function Projection(ctx: Ctx, t: string, a: string): (r: string)
    ensures |r| == |t| + 2 * |a| + 5 + 6 * |ctx.quote|
    ensures TablePrefix(ctx, t) <= r
    ensures r[|r| - |Quote(ctx, a)|..] == Quote(ctx, a)
  {
    var full := ToFullName(ctx, t, a);
    assert TablePrefix(ctx, t) <= full;
    assert (full + " AS " + Quote(ctx, a))[|full| + 4..] == Quote(ctx, a);
    full + " AS " + Quote(ctx, a)
  }
}
