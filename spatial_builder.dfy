/**
 * The query-builder extension that adds spatial functions to a query as
 * raw SQL fragments. Each public method appends one fragment to the
 * select list, the where list or the order list, and returns the builder
 * itself so calls chain.
 */
module SpatialQuery {
  import opened PhpRuntime
  import opened GeometryCast

  /** `Geometry|string $geometryOrColumn` */
  datatype Operand = GeometryOperand(g: Geometry) | ColumnOperand(name: string)

  /**
   * `int|float $value`, as `sprintf('%s', …)` renders it: an integer in
   * decimal, a float as the text PHP's float-to-string conversion gives.
   */
  datatype Number = IntNumber(i: Int64) | FloatNumber(rendered: string)

  function RenderNumber(n: Number): string {
    match n
    case IntNumber(i) => IntToString(i)
    case FloatNumber(t) => t
  }

  /** An entry of the query's select list: a column name, or a raw expression. */
  datatype Column = Named(name: string) | RawColumn(sql: string)

  class SpatialBuilder {
    /** The select list; empty stands for Laravel's `null` as well as `[]`. */
    var columns: seq<Column>
    /** The raw where fragments, in the order they were added. */
    var wheres: seq<string>
    /** The raw order-by fragments, in the order they were added. */
    var orders: seq<string>
    /** `$this->getConnection()->isMaria()` */
    const isMaria: bool

    constructor (isMaria: bool)
      ensures this.isMaria == isMaria
      ensures columns == [] && wheres == [] && orders == []
    {
      this.isMaria := isMaria;
      columns, wheres, orders := [], [], [];
    }

    /**
     * `toExpression`: a column name in backticks, or a geometry as exactly
     * the expression the cast stores for it on this connection, which the
     * cast reads back as the same WKT and SRID.
     */
    function ToExpression(x: Operand): (r: string)
      ensures x.ColumnOperand? ==> r == "`" + x.name + "`"
      ensures x.GeometryOperand? ==> Set(x.g.className, Geom(x.g), isMaria) == StoredExpression(r)
      ensures x.GeometryOperand? && WktSafe(x.g.wkt) ==>
        Get(x.g.className, RawExpression(r)) == FromWkt(x.g.className, x.g.wkt, x.g.srid)
    {
      match x
      case ColumnOperand(name) => "`" + name + "`"
      case GeometryOperand(g) =>
        SetWritesGeomFromText(g.className, g, isMaria);
        if WktSafe(g.wkt) then
          GetInvertsSet(g.className, g, isMaria);
          GeomFromText(g.wkt, g.srid, isMaria)
        else
          GeomFromText(g.wkt, g.srid, isMaria)
    }

    /** `select('*')` when nothing is selected yet. */
    static function SelectStar(cols: seq<Column>): (r: seq<Column>)
      ensures cols == [] ==> r == [Named("*")]
      ensures cols != [] ==> r == cols
    {
      if cols == [] then [Named("*")] else cols
    }

    method WithDistance(column: string, x: Operand, alias: string := "distance") returns (r: SpatialBuilder)
      modifies this
      ensures r == this
      ensures columns == SelectStar(old(columns))
        + [RawColumn("ST_DISTANCE(`" + column + "`, " + ToExpression(x) + ") AS " + alias)]
      ensures old(columns) == [] ==> |columns| == 2 && columns[0] == Named("*")
      ensures old(columns) != [] ==> columns[..|old(columns)|] == old(columns)
      ensures wheres == old(wheres) && orders == old(orders)
    {
      columns := SelectStar(columns);
      columns := columns + [RawColumn("ST_DISTANCE(`" + column + "`, " + ToExpression(x) + ") AS " + alias)];
      r := this;
    }

    method WhereDistance(column: string, x: Operand, operator: string, value: Number) returns (r: SpatialBuilder)
      modifies this
      ensures r == this
      ensures wheres == old(wheres)
        + ["ST_DISTANCE(`" + column + "`, " + ToExpression(x) + ") " + operator + " " + RenderNumber(value)]
      ensures columns == old(columns) && orders == old(orders)
    {
      wheres := wheres + ["ST_DISTANCE(`" + column + "`, " + ToExpression(x) + ") " + operator + " " + RenderNumber(value)];
      r := this;
    }

    method OrderByDistance(column: string, x: Operand, direction: string := "asc") returns (r: SpatialBuilder)
      modifies this
      ensures r == this
      ensures orders == old(orders) + ["ST_DISTANCE(`" + column + "`, " + ToExpression(x) + ") " + direction]
      ensures columns == old(columns) && wheres == old(wheres)
    {
      orders := orders + ["ST_DISTANCE(`" + column + "`, " + ToExpression(x) + ") " + direction];
      r := this;
    }

    method WithDistanceSphere(column: string, x: Operand, alias: string := "distance") returns (r: SpatialBuilder)
      modifies this
      ensures r == this
      ensures columns == SelectStar(old(columns))
        + [RawColumn("ST_DISTANCE_SPHERE(`" + column + "`, " + ToExpression(x) + ") AS " + alias)]
      ensures old(columns) == [] ==> |columns| == 2 && columns[0] == Named("*")
      ensures old(columns) != [] ==> columns[..|old(columns)|] == old(columns)
      ensures wheres == old(wheres) && orders == old(orders)
    {
      columns := SelectStar(columns);
      columns := columns + [RawColumn("ST_DISTANCE_SPHERE(`" + column + "`, " + ToExpression(x) + ") AS " + alias)];
      r := this;
    }

    method WhereDistanceSphere(column: string, x: Operand, operator: string, value: Number) returns (r: SpatialBuilder)
      modifies this
      ensures r == this
      ensures wheres == old(wheres)
        + ["ST_DISTANCE_SPHERE(`" + column + "`, " + ToExpression(x) + ") " + operator + " " + RenderNumber(value)]
      ensures columns == old(columns) && orders == old(orders)
    {
      wheres := wheres + ["ST_DISTANCE_SPHERE(`" + column + "`, " + ToExpression(x) + ") " + operator + " " + RenderNumber(value)];
      r := this;
    }

    method OrderByDistanceSphere(column: string, x: Operand, direction: string := "asc") returns (r: SpatialBuilder)
      modifies this
      ensures r == this
      ensures orders == old(orders) + ["ST_DISTANCE_SPHERE(`" + column + "`, " + ToExpression(x) + ") " + direction]
      ensures columns == old(columns) && wheres == old(wheres)
    {
      orders := orders + ["ST_DISTANCE_SPHERE(`" + column + "`, " + ToExpression(x) + ") " + direction];
      r := this;
    }

    method WhereWithin(column: string, x: Operand) returns (r: SpatialBuilder)
      modifies this
      ensures r == this
      ensures wheres == old(wheres) + ["ST_WITHIN(`" + column + "`, " + ToExpression(x) + ")"]
      ensures columns == old(columns) && orders == old(orders)
    {
      wheres := wheres + ["ST_WITHIN(`" + column + "`, " + ToExpression(x) + ")"];
      r := this;
    }

    method WhereContains(column: string, x: Operand) returns (r: SpatialBuilder)
      modifies this
      ensures r == this
      ensures wheres == old(wheres) + ["ST_CONTAINS(`" + column + "`, " + ToExpression(x) + ")"]
      ensures columns == old(columns) && orders == old(orders)
    {
      wheres := wheres + ["ST_CONTAINS(`" + column + "`, " + ToExpression(x) + ")"];
      r := this;
    }

    method WhereTouches(column: string, x: Operand) returns (r: SpatialBuilder)
      modifies this
      ensures r == this
      ensures wheres == old(wheres) + ["ST_TOUCHES(`" + column + "`, " + ToExpression(x) + ")"]
      ensures columns == old(columns) && orders == old(orders)
    {
      wheres := wheres + ["ST_TOUCHES(`" + column + "`, " + ToExpression(x) + ")"];
      r := this;
    }

    method WhereIntersects(column: string, x: Operand) returns (r: SpatialBuilder)
      modifies this
      ensures r == this
      ensures wheres == old(wheres) + ["ST_INTERSECTS(`" + column + "`, " + ToExpression(x) + ")"]
      ensures columns == old(columns) && orders == old(orders)
    {
      wheres := wheres + ["ST_INTERSECTS(`" + column + "`, " + ToExpression(x) + ")"];
      r := this;
    }

    method WhereCrosses(column: string, x: Operand) returns (r: SpatialBuilder)
      modifies this
      ensures r == this
      ensures wheres == old(wheres) + ["ST_CROSSES(`" + column + "`, " + ToExpression(x) + ")"]
      ensures columns == old(columns) && orders == old(orders)
    {
      wheres := wheres + ["ST_CROSSES(`" + column + "`, " + ToExpression(x) + ")"];
      r := this;
    }

    method WhereDisjoint(column: string, x: Operand) returns (r: SpatialBuilder)
      modifies this
      ensures r == this
      ensures wheres == old(wheres) + ["ST_DISJOINT(`" + column + "`, " + ToExpression(x) + ")"]
      ensures columns == old(columns) && orders == old(orders)
    {
      wheres := wheres + ["ST_DISJOINT(`" + column + "`, " + ToExpression(x) + ")"];
      r := this;
    }

    method WhereOverlaps(column: string, x: Operand) returns (r: SpatialBuilder)
      modifies this
      ensures r == this
      ensures wheres == old(wheres) + ["ST_OVERLAPS(`" + column + "`, " + ToExpression(x) + ")"]
      ensures columns == old(columns) && orders == old(orders)
    {
      wheres := wheres + ["ST_OVERLAPS(`" + column + "`, " + ToExpression(x) + ")"];
      r := this;
    }

    method WhereEquals(column: string, x: Operand) returns (r: SpatialBuilder)
      modifies this
      ensures r == this
      ensures wheres == old(wheres) + ["ST_EQUALS(`" + column + "`, " + ToExpression(x) + ")"]
      ensures columns == old(columns) && orders == old(orders)
    {
      wheres := wheres + ["ST_EQUALS(`" + column + "`, " + ToExpression(x) + ")"];
      r := this;
    }

    method WhereSrid(column: string, operator: string, value: Number) returns (r: SpatialBuilder)
      modifies this
      ensures r == this
      ensures wheres == old(wheres) + ["ST_SRID(`" + column + "`) " + operator + " " + RenderNumber(value)]
      ensures columns == old(columns) && orders == old(orders)
    {
      wheres := wheres + ["ST_SRID(`" + column + "`) " + operator + " " + RenderNumber(value)];
      r := this;
    }
  }
}
