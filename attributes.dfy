/** `attrBuild`: the selected columns of a query, each attribute name written
    as its full column name under its own quoted name. */
module Attributes {
  import opened Types
  import opened Naming

  /** An attribute `reflect` reports as of kind string. */
  predicate IsName(v: Value) {
    v.Scalar? && v.lit.StrLit?
  }

  /** `attrBuild`: any attribute that is not a string fails the whole list
      with "invalid syntax"; otherwise one aliased column per attribute, in
      order, and `*` when there are none. */
  method AttrBuild(ctx: Ctx, attributes: seq<Value>, tableName: string) returns (r: Result<seq<string>>)
    ensures r.Ok? <==> forall i :: 0 <= i < |attributes| ==> IsName(attributes[i])
    ensures r.Err? ==> r.error == InvalidSyntax
    ensures r.Ok? && |attributes| == 0 ==> r.value == ["*"]
    ensures r.Ok? && |attributes| != 0 ==>
              && |r.value| == |attributes|
              && forall i :: 0 <= i < |attributes| ==>
                   r.value[i] == Projection(ctx, tableName, attributes[i].lit.s)
  {
    var attrs: seq<string> := [];
    var i := 0;
    while i < |attributes|
      invariant 0 <= i <= |attributes|
      invariant forall k :: 0 <= k < i ==> IsName(attributes[k])
      invariant |attrs| == i
      invariant forall k :: 0 <= k < i ==> attrs[k] == Projection(ctx, tableName, attributes[k].lit.s)
    {
      var v := attributes[i];
      match v {
        case Scalar(StrLit(str)) =>
          var colName := ToFullName(ctx, tableName, str);
          var aliased := colName + " AS " + Quote(ctx, str);
          attrs := attrs + [aliased];
        case _ =>
          return Err(InvalidSyntax);
      }
      i := i + 1;
    }
    if |attrs| == 0 {
      attrs := ["*"];
    }
    return Ok(attrs);
  }

  /** Distinct attribute names give distinct columns: the aliased column
      determines the attribute it was written for. */
  lemma ProjectionInjective(ctx: Ctx, t: string, a1: string, a2: string)
    requires Projection(ctx, t, a1) == Projection(ctx, t, a2)
    ensures a1 == a2
  {
    var p1 := Projection(ctx, t, a1);
    assert |a1| == |a2|;
    var f1 := ToFullName(ctx, t, a1);
    var f2 := ToFullName(ctx, t, a2);
    assert p1 == f1 + " AS " + Quote(ctx, a1);
    assert p1[..|f1|] == f1;
    assert |f1| == |f2|;
    assert p1[..|f2|] == f2;
    FullNameInjective(ctx, t, a1, a2);
  }

  /** So a list of distinct names selects distinct columns. */
  lemma ColumnsDistinct(ctx: Ctx, t: string, names: seq<string>, cols: seq<string>)
    requires |cols| == |names|
    requires forall i :: 0 <= i < |names| ==> cols[i] == Projection(ctx, t, names[i])
    requires forall i, j :: 0 <= i < j < |names| ==> names[i] != names[j]
    ensures forall i, j :: 0 <= i < j < |cols| ==> cols[i] != cols[j]
  {
    forall i, j | 0 <= i < j < |cols|
      ensures cols[i] != cols[j]
    {
      if cols[i] == cols[j] {
        ProjectionInjective(ctx, t, names[i], names[j]);
      }
    }
  }
}
