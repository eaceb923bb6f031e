/** `addJoins`: each include of a filter becomes join clauses on the select
    builder, and an include with a `where` also adds that condition, compiled
    against the joined table. */
module Joins {
  import opened Types
  import GoQuery
  import opened Naming
  import BuilderContext

  /** The join table an include goes through. */
  datatype Through = Through(tableName: string, sourceKey: string, foreignKey: string)

  /** An association to join: the target table, the parent's key, the target's
      key, an optional condition on the target, and an optional through table. */
  datatype Include = Include(
    table: string,
    sourceKey: string,
    foreignKey: string,
    where: Fields,
    through: Option<Through>)

  /** `"<joined> ON <parent.parentKey> = <joined.joinedKey>"`; the joined
      table's own name is written without quotes. */
  function OnClause(ctx: Ctx, joined: string, parent: string, parentKey: string, joinedKey: string): (r: string)
    ensures joined <= r
    ensures |ToFullName(ctx, joined, joinedKey)| <= |r| &&
            r[|r| - |ToFullName(ctx, joined, joinedKey)|..] == ToFullName(ctx, joined, joinedKey)
  {
    var right := ToFullName(ctx, joined, joinedKey);
    var r := joined + " ON " + ToFullName(ctx, parent, parentKey) + " = " + right;
    assert r[..|joined|] == joined;
    assert r[|r| - |right|..] == right;
    r
  }

  /** A `map[string]interface{}` seen as a dynamic value. */
  function AsMap(fs: Fields): (v: Value)
    ensures v.MapV? && |v.entries| == |fs|
    ensures AllStrKeys(v.entries)
  {
    MapV(seq(|fs|, i requires 0 <= i < |fs| => Entry(StrKey(fs[i].0), fs[i].1)))
  }

  /** The context the include's `where` is compiled in: the receiver's copy
      rebound to the joined table, relation unchanged. */
  function WhereCtx(ctx: Ctx, inc: Include): (r: Ctx)
    ensures r.tableName == inc.table
    ensures r.builder == ctx.builder && r.quote == ctx.quote && r.rel == ctx.rel
  {
    Inherit(ctx).(tableName := inc.table)
  }

  /** One turn of the loop: the builder after the include, and the error that
      stops the loop, if any. */
  function Step(ctx: Ctx, bs: Select, tableName: string, inc: Include): (Select, Option<Error>) {
    if |inc.where| == 0 then
      match inc.through
      case None =>
        (bs.(joins := bs.joins + [LeftJoin(OnClause(ctx, inc.table, tableName, inc.sourceKey, inc.foreignKey))]), None)
      case Some(th) =>
        var throughClause := OnClause(ctx, th.tableName, tableName, inc.sourceKey, th.sourceKey);
        var clause := OnClause(ctx, inc.table, th.tableName, th.foreignKey, inc.foreignKey);
        (bs.(joins := bs.joins + [LeftJoin(throughClause), LeftJoin(clause)]), None)
    else
      match inc.through
      case Some(_) => (bs, None)
      case None =>
        var clause := "LEFT INNER JOIN " + OnClause(ctx, inc.table, tableName, inc.sourceKey, inc.foreignKey);
        var joined := bs.(joins := bs.joins + [JoinClause(clause)]);
        match BuilderContext.WhereTree(WhereCtx(ctx, inc), AsMap(inc.where))
        case Err(e) => (joined, Some(e))
        case Ok(w) => (joined.(wheres := joined.wheres + [w]), None)
  }

  /** The whole loop: the includes in list order, stopping at the first error
      with the builder as it stands at that point. */
  function Joined(ctx: Ctx, bs: Select, tableName: string, incs: seq<Include>): (Select, Option<Error>)
    decreases |incs|
  {
    if incs == [] then (bs, None)
    else
      var s := Step(ctx, bs, tableName, incs[0]);
      if s.1.Some? then s else Joined(ctx, s.0, tableName, incs[1..])
  }

  /** `addJoins` */
  method AddJoins(ctx: Ctx, bs0: Select, tableName: string, includes: seq<Include>)
    returns (bs: Select, err: Option<Error>)
    ensures (bs, err) == Joined(ctx, bs0, tableName, includes)
  {
    bs := bs0;
    var i := 0;
    assert includes[i..] == includes;
    while i < |includes|
      invariant 0 <= i <= |includes|
      invariant Joined(ctx, bs0, tableName, includes) == Joined(ctx, bs, tableName, includes[i..])
    {
      var inc := includes[i];
      assert includes[i..][0] == inc && includes[i..][1..] == includes[i + 1..];
      ghost var before := bs;
      if |inc.where| == 0 {
        if inc.through.None? {
          var clause := OnClause(ctx, inc.table, tableName, inc.sourceKey, inc.foreignKey);
          bs := bs.(joins := bs.joins + [LeftJoin(clause)]);
        } else {
          var th := inc.through.value;
          var throughClause := OnClause(ctx, th.tableName, tableName, inc.sourceKey, th.sourceKey);
          var clause := OnClause(ctx, inc.table, th.tableName, th.foreignKey, inc.foreignKey);
          bs := bs.(joins := bs.joins + [LeftJoin(throughClause)]);
          bs := bs.(joins := bs.joins + [LeftJoin(clause)]);
          assert bs.joins == before.joins + [LeftJoin(throughClause), LeftJoin(clause)];
        }
      } else {
        if inc.through.None? {
          var clause := "LEFT INNER JOIN " + OnClause(ctx, inc.table, tableName, inc.sourceKey, inc.foreignKey);
          bs := bs.(joins := bs.joins + [JoinClause(clause)]);
          var nb := Inherit(ctx);
          nb := nb.(tableName := inc.table);
          var where := BuilderContext.ParseWhere(nb, AsMap(inc.where));
          if where.Err? {
            assert Step(ctx, before, tableName, inc) == (bs, Some(where.error));
            return bs, Some(where.error);
          }
          bs := bs.(wheres := bs.wheres + [where.value]);
        }
      }
      assert Step(ctx, before, tableName, inc) == (bs, None);
      i := i + 1;
    }
    err := None;
  }

  // ---------------------------------------------------------------------
  // Properties
  // ---------------------------------------------------------------------

  /** The join clauses an include contributes when the loop gets past it. */
  function Clauses(ctx: Ctx, tableName: string, inc: Include): seq<Join> {
    if |inc.where| == 0 then
      match inc.through
      case None => [LeftJoin(OnClause(ctx, inc.table, tableName, inc.sourceKey, inc.foreignKey))]
      case Some(th) =>
        [LeftJoin(OnClause(ctx, th.tableName, tableName, inc.sourceKey, th.sourceKey)),
         LeftJoin(OnClause(ctx, inc.table, th.tableName, th.foreignKey, inc.foreignKey))]
    else
      match inc.through
      case Some(_) => []
      case None => [JoinClause("LEFT INNER JOIN " + OnClause(ctx, inc.table, tableName, inc.sourceKey, inc.foreignKey))]
  }

  function AllClauses(ctx: Ctx, tableName: string, incs: seq<Include>): seq<Join> {
    if incs == [] then [] else Clauses(ctx, tableName, incs[0]) + AllClauses(ctx, tableName, incs[1..])
  }

  /** Whether an include's `where`, if the loop compiles one, compiles. */
  predicate Compiles(ctx: Ctx, inc: Include) {
    |inc.where| == 0 || inc.through.Some? ||
    BuilderContext.WhereTree(WhereCtx(ctx, inc), AsMap(inc.where)).Ok?
  }

  /** Each kind of include: without a `where`, one left join, or two through
      the join table (through clause first); with a `where` and no through
      table, one inner join clause and at most one condition; with both,
      nothing at all. The selected columns and table never change. */
  lemma StepEffect(ctx: Ctx, bs: Select, tableName: string, inc: Include)
    ensures var (r, err) := Step(ctx, bs, tableName, inc);
            && r.columns == bs.columns && r.from == bs.from
            && r.joins == bs.joins + Clauses(ctx, tableName, inc)
            && (err.None? <==> Compiles(ctx, inc))
            && (err.None? && |inc.where| != 0 && inc.through.None? ==>
                  r.wheres == bs.wheres + [BuilderContext.WhereTree(WhereCtx(ctx, inc), AsMap(inc.where)).value])
            && (err.Some? || |inc.where| == 0 || inc.through.Some? ==> r.wheres == bs.wheres)
            && (err.Some? ==> err.value == BuilderContext.WhereTree(WhereCtx(ctx, inc), AsMap(inc.where)).error)
  {
  }

  /** An include with both a `where` and a through table is skipped without
      an error. */
  lemma WhereWithThroughSkipped(ctx: Ctx, bs: Select, tableName: string, inc: Include)
    requires |inc.where| != 0 && inc.through.Some?
    ensures Step(ctx, bs, tableName, inc) == (bs, None)
  {
  }

  /** The include's condition compares only columns of the joined table, and
      was compiled with the receiver's relation. */
  lemma StepWhereQualified(ctx: Ctx, bs: Select, tableName: string, inc: Include)
    ensures var r := Step(ctx, bs, tableName, inc).0;
            forall k :: |bs.wheres| <= k < |r.wheres| ==>
              BuilderContext.Qualified(r.wheres[k], TablePrefix(ctx, inc.table))
    ensures WhereCtx(ctx, inc).rel == ctx.rel && WhereCtx(ctx, inc).quote == ctx.quote
  {
    var nb := WhereCtx(ctx, inc);
    BuilderContext.WhereTreeQualified(nb, AsMap(inc.where));
    assert TablePrefix(nb, nb.tableName) == TablePrefix(ctx, inc.table);
  }

  /** The includes are processed in list order: when the loop completes, the
      builder holds the original joins followed by each include's clauses in
      order, the original conditions first, and the same columns and table. */
  lemma {:induction false} JoinedInOrder(ctx: Ctx, bs: Select, tableName: string, incs: seq<Include>)
    decreases |incs|
    ensures var (r, err) := Joined(ctx, bs, tableName, incs);
            && r.columns == bs.columns && r.from == bs.from
            && bs.wheres <= r.wheres
            && (err.None? ==> r.joins == bs.joins + AllClauses(ctx, tableName, incs))
  {
    if incs != [] {
      StepEffect(ctx, bs, tableName, incs[0]);
      var s := Step(ctx, bs, tableName, incs[0]);
      if s.1.None? {
        JoinedInOrder(ctx, s.0, tableName, incs[1..]);
        assert bs.joins + Clauses(ctx, tableName, incs[0]) + AllClauses(ctx, tableName, incs[1..])
               == bs.joins + (Clauses(ctx, tableName, incs[0]) + AllClauses(ctx, tableName, incs[1..]));
      }
    }
  }

  /** The loop reports an error exactly when some include's condition fails
      to compile, and then it is the first such include's error. */
  lemma {:induction false} JoinedErrors(ctx: Ctx, bs: Select, tableName: string, incs: seq<Include>)
    ensures Joined(ctx, bs, tableName, incs).1.None? <==> forall i :: 0 <= i < |incs| ==> Compiles(ctx, incs[i])
    ensures Joined(ctx, bs, tableName, incs).1.Some? ==>
              exists i :: 0 <= i < |incs| && !Compiles(ctx, incs[i]) &&
                (forall j :: 0 <= j < i ==> Compiles(ctx, incs[j])) &&
                Joined(ctx, bs, tableName, incs).1.value
                == BuilderContext.WhereTree(WhereCtx(ctx, incs[i]), AsMap(incs[i].where)).error
    decreases |incs|
  {
    if incs != [] {
      StepEffect(ctx, bs, tableName, incs[0]);
      var s := Step(ctx, bs, tableName, incs[0]);
      assert forall i :: 1 <= i < |incs| ==> incs[1..][i - 1] == incs[i];
      if s.1.None? {
        JoinedErrors(ctx, s.0, tableName, incs[1..]);
        if Joined(ctx, s.0, tableName, incs[1..]).1.Some? {
          var i :| 0 <= i < |incs[1..]| && !Compiles(ctx, incs[1..][i]) &&
                   (forall j :: 0 <= j < i ==> Compiles(ctx, incs[1..][j])) &&
                   Joined(ctx, s.0, tableName, incs[1..]).1.value
                   == BuilderContext.WhereTree(WhereCtx(ctx, incs[1..][i]), AsMap(incs[1..][i].where)).error;
          assert incs[i + 1] == incs[1..][i];
          assert forall j :: 1 <= j < i + 1 ==> incs[j] == incs[1..][j - 1];
        }
      } else {
        assert !Compiles(ctx, incs[0]);
      }
    }
  }
}
