/**
 * The attribute cast that stores a geometry as a raw SQL expression
 * `ST_GeomFromText('<wkt>', <srid>[, 'axis-order=long-lat'])` and reads a
 * stored value back: either that expression, re-parsed with two fixed
 * regular expressions, or a WKB blob handed to the geometry class.
 *
 * A geometry is opaque here: its class, the classes it is an instance of,
 * the text its `toWkt()` returns and its `srid`.
 */
module GeometryCast {
  import opened PhpRuntime

  datatype Option<T> = None | Some(value: T)

  /** A geometry object: `className` is `$value::class`, `wkt` is `$value->toWkt()`. */
  datatype Geometry = Geometry(className: string, ancestors: set<string>, wkt: string, srid: Int64)

  /** `$g instanceof $cls` */
  predicate InstanceOf(g: Geometry, cls: string) {
    cls == g.className || cls in g.ancestors
  }

  /** `static::class` inside the cast, which is what the error message names. */
  const CastClassName: string := "MatanYadaev\\EloquentSpatial\\GeometryCast"

  const Prefix: string := "ST_GeomFromText('"
  const AxisOrder: string := ", 'axis-order=long-lat'"

  /**
   * The raw expression written for a geometry. MariaDB already reads
   * long/lat, so only the other engines get the axis-order argument.
   */
  function GeomFromText(wkt: string, srid: int, isMaria: bool): string {
    Prefix + wkt + "', " + Tail(srid, isMaria)
  }

  /** The text written after `', `: the rendered SRID, the dialect's suffix, `)`. */
  function Tail(srid: int, isMaria: bool): string {
    IntToString(srid) + Suffix(isMaria) + ")"
  }

  function Suffix(isMaria: bool): string {
    if isMaria then "" else AxisOrder
  }

  // ---------------------------------------------------------------------
  // The two patterns
  //   extractWkt:  /ST_GeomFromText\('(.+)', .+(, .+)?\)/
  //   extractSrid: /ST_GeomFromText\('.+', (.+)(, .+)?\)/
  // `.` is any character but a newline. Both patterns consume the same
  // text up to `', ` and accept the same strings, so a match is located
  // once: its leftmost start, the greedy split before `', `, and the last
  // `)` that the greedy tail can reach.
  // ---------------------------------------------------------------------

  /** `.+\)` can match s[a..j+1]: at least one non-newline, then the `)` at j. */
  predicate CloseAt(s: string, a: nat, j: nat) {
    a < j < |s| && s[j] == ')' && '\n' !in s[a..j]
  }

  /** The last j below hi at which `.+\)` starting at a can end. */
  function LastClose(s: string, a: nat, hi: nat): (r: Option<nat>)
    requires hi <= |s|
    ensures r.Some? ==> r.value < hi && CloseAt(s, a, r.value)
    ensures r.Some? ==> forall j: nat :: r.value < j < hi ==> !CloseAt(s, a, j)
    ensures r.None? ==> forall j: nat :: j < hi ==> !CloseAt(s, a, j)
    decreases hi
  {
    if hi <= a + 1 then None
    else if CloseAt(s, a, hi - 1) then Some(hi - 1)
    else LastClose(s, a, hi - 1)
  }

  /**
   * The capture s[q..e] can be followed by the rest of either pattern:
   * `', `, then `.+\)` (the optional `(, .+)?` never changes which strings
   * match, because `.+` can absorb it).
   */
  predicate SplitAt(s: string, q: nat, e: nat) {
    q < e && e + 3 <= |s| && '\n' !in s[q..e] && s[e..e + 3] == "', "
    && LastClose(s, e + 3, |s|).Some?
  }

  /** The greedy `(.+)` before `', `: the last split below hi. */
  function LastSplit(s: string, q: nat, hi: nat): (r: Option<nat>)
    ensures r.Some? ==> r.value < hi && SplitAt(s, q, r.value)
    ensures r.Some? ==> forall e: nat :: r.value < e < hi ==> !SplitAt(s, q, e)
    ensures r.None? ==> forall e: nat :: e < hi ==> !SplitAt(s, q, e)
    decreases hi
  {
    if hi <= q + 1 then None
    else if SplitAt(s, q, hi - 1) then Some(hi - 1)
    else LastSplit(s, q, hi - 1)
  }

  predicate PrefixAt(s: string, p: nat) {
    p + |Prefix| <= |s| && s[p..p + |Prefix|] == Prefix
  }

  /** Either pattern matches with its start at p. */
  predicate MatchesAt(s: string, p: nat) {
    PrefixAt(s, p) && LastSplit(s, p + |Prefix|, |s|).Some?
  }

  /**
   * A located match starting at `start`: the first capture of the WKT
   * pattern is s[start + |Prefix|..split]; the first capture of the SRID
   * pattern is s[split + 3..close].
   */
  datatype Match = Match(start: nat, split: nat, close: nat)

  /** The leftmost match starting at or after p. */
  function MatchFrom(s: string, p: nat): (r: Option<Match>)
    ensures r.Some? ==> p <= r.value.start && MatchesAt(s, r.value.start)
    ensures r.Some? ==> forall p': nat :: p <= p' < r.value.start ==> !MatchesAt(s, p')
    ensures r.None? ==> forall p': nat :: p <= p' ==> !MatchesAt(s, p')
    ensures r.Some? ==> LastSplit(s, r.value.start + |Prefix|, |s|) == Some(r.value.split)
    ensures r.Some? ==> LastClose(s, r.value.split + 3, |s|) == Some(r.value.close)
    decreases |s| - p
  {
    if p + |Prefix| > |s| then None
    else if MatchesAt(s, p) then
      var e := LastSplit(s, p + |Prefix|, |s|).value;
      Some(Match(p, e, LastClose(s, e + 3, |s|).value))
    else MatchFrom(s, p + 1)
  }

  function Locate(s: string): Option<Match> {
    MatchFrom(s, 0)
  }

  /** `extractWktFromExpression`: the first capture of the WKT pattern. */
  function ExtractWkt(s: string): (r: Option<string>)
    ensures r.Some? ==> |r.value| > 0 && '\n' !in r.value
  {
    match Locate(s)
    case None => None
    case Some(m) => Some(s[m.start + |Prefix|..m.split])
  }

  /** The first capture of the SRID pattern, before the cast to int. */
  function SridText(s: string): (r: Option<string>)
    ensures r.Some? ==> |r.value| > 0 && '\n' !in r.value
  {
    match Locate(s)
    case None => None
    case Some(m) => Some(s[m.split + 3..m.close])
  }

  /** `extractSridFromExpression`: `(int)` of the SRID capture. */
  function ExtractSrid(s: string): (r: Option<Int64>)
    ensures r.Some? <==> SridText(s).Some?
    ensures r.Some? ==> r.value == IntCast(SridText(s).value)
  {
    match SridText(s)
    case None => None
    case Some(t) => Some(IntCast(t))
  }

  // ---------------------------------------------------------------------
  // get / set
  // ---------------------------------------------------------------------

  /** A value the model attribute may be set to (`Geometry|mixed|null`). */
  datatype Value =
    | Null
    | Bool(b: bool)
    | Int(i: Int64)
    | Str(s: string)
    | Arr(size: nat)
    | Obj(objClass: string)
    | Geom(g: Geometry)

  /** PHP truthiness: `! $value` is false exactly for these. */
  predicate Truthy(v: Value) {
    match v
    case Null => false
    case Bool(b) => b
    case Int(i) => i != 0
    case Str(s) => s != "" && s != "0"
    case Arr(n) => n != 0
    case Obj(_) => true
    case Geom(_) => true
  }

  /** `is_object($value) ? $value::class : gettype($value)` */
  function TypeName(v: Value): string {
    match v
    case Null => "NULL"
    case Bool(_) => "boolean"
    case Int(_) => "integer"
    case Str(_) => "string"
    case Arr(_) => "array"
    case Obj(c) => c
    case Geom(g) => g.className
  }

  /** What `set` hands back to the model: null, a raw expression, or the exception. */
  datatype Stored = StoredNull | StoredExpression(sql: string) | InvalidArgument(message: string)

  function InvalidArgumentMessage(v: Value): string {
    "Expected " + CastClassName + ", " + TypeName(v) + " given."
  }

  /**
   * `set`: a falsy value is stored as null; anything that is not an instance
   * of the configured class raises; a geometry becomes the raw expression
   * for the connection's dialect.
   */
  function Set(className: string, value: Value, isMaria: bool): (r: Stored)
    ensures r.StoredNull? <==> !Truthy(value)
    ensures r.InvalidArgument? <==> Truthy(value) && !(value.Geom? && InstanceOf(value.g, className))
    ensures r.InvalidArgument? ==> r.message == InvalidArgumentMessage(value)
    ensures r.StoredExpression? ==> value.Geom? && InstanceOf(value.g, className)
    ensures r.StoredExpression? && isMaria ==>
      r.sql == Prefix + value.g.wkt + "', " + IntToString(value.g.srid) + ")"
    ensures r.StoredExpression? && !isMaria ==>
      r.sql == Prefix + value.g.wkt + "', " + IntToString(value.g.srid) + ", 'axis-order=long-lat')"
  {
    if !Truthy(value) then StoredNull
    else if !(value.Geom? && InstanceOf(value.g, className)) then InvalidArgument(InvalidArgumentMessage(value))
    else StoredExpression(GeomFromText(value.g.wkt, value.g.srid, isMaria))
  }

  /** A raw attribute value as `get` receives it (`string|Expression|null`). */
  datatype Raw = RawNull | RawString(bytes: string) | RawExpression(sql: string)

  predicate RawTruthy(v: Raw) {
    match v
    case RawNull => false
    case RawString(b) => b != "" && b != "0"
    case RawExpression(_) => true
  }

  /**
   * What `get` does with a raw value: nothing, `className::fromWkt(wkt, srid)`,
   * `className::fromWkb(bytes)`, or a failure: when the pattern does not
   * match, the WKT extractor reads the missing `$match[1]` and returns null
   * for its `string` result, which PHP refuses with an error.
   */
  datatype Loaded =
    | NoGeometry
    | FromWkt(wktClass: string, wkt: string, srid: Int64)
    | FromWkb(wkbClass: string, wkb: string)
    | UnmatchedExpression

  function Get(className: string, value: Raw): (r: Loaded)
    ensures r.NoGeometry? <==> !RawTruthy(value)
    ensures value.RawString? && RawTruthy(value) ==> r == FromWkb(className, value.bytes)
    ensures r.FromWkt? ==> value.RawExpression? && r.wktClass == className
    ensures r.FromWkt? ==> ExtractWkt(value.sql) == Some(r.wkt) && ExtractSrid(value.sql) == Some(r.srid)
    ensures value.RawExpression? ==> (r.UnmatchedExpression? <==> ExtractWkt(value.sql).None?)
  {
    if !RawTruthy(value) then NoGeometry
    else if value.RawExpression? then
      match (ExtractWkt(value.sql), ExtractSrid(value.sql))
      case (Some(w), Some(srid)) => FromWkt(className, w, srid)
      case _ => UnmatchedExpression
    else FromWkb(className, value.bytes)
  }

  // ---------------------------------------------------------------------
  // The round trip
  // ---------------------------------------------------------------------

  /** The WKT texts the patterns can carry: non-empty, no quote, no newline. */
  predicate WktSafe(wkt: string) {
    |wkt| > 0 && '\'' !in wkt && '\n' !in wkt
  }

  /** No `'` in t is directly followed by `,`, so no `', ` starts in t. */
  predicate NoQuoteComma(t: string) {
    forall k :: 0 <= k < |t| - 1 ==> !(t[k] == '\'' && t[k + 1] == ',')
  }

  /** The text after the WKT ends in `)`, reaches it without a newline and starts no `', `. */
  lemma TailShape(srid: int, isMaria: bool)
    ensures |Tail(srid, isMaria)| >= 2
    ensures Tail(srid, isMaria)[|Tail(srid, isMaria)| - 1] == ')'
    ensures '\n' !in Tail(srid, isMaria)
    ensures NoQuoteComma(Tail(srid, isMaria))
  {
    var r := IntToString(srid);
    var x := Suffix(isMaria) + ")";
    var t := Tail(srid, isMaria);
    assert t == r + x;
    assert NoQuoteComma(x) && '\n' !in x;
    forall k | 0 <= k < |t|
      ensures t[k] != '\n'
      ensures k < |t| - 1 ==> !(t[k] == '\'' && t[k + 1] == ',')
    {
      if k < |r| {
        assert t[k] == r[k];
      } else {
        assert t[k] == x[k - |r|];
        if k < |t| - 1 {
          assert t[k + 1] == x[k + 1 - |r|];
        }
      }
    }
  }

  /** A `)` at the very end, reached without a newline, is the greedy close. */
  lemma CloseIsLast(s: string, a: nat)
    requires a + 1 < |s| && s[|s| - 1] == ')' && '\n' !in s[a..|s| - 1]
    ensures LastClose(s, a, |s|) == Some(|s| - 1)
  {
  }

  /** A split after which no `'` is followed by `,` is the greedy split. */
  lemma SplitIsLast(s: string, q: nat, e: nat)
    requires SplitAt(s, q, e)
    requires forall k :: e < k < |s| - 1 ==> !(s[k] == '\'' && s[k + 1] == ',')
    ensures LastSplit(s, q, |s|) == Some(e)
  {
    forall e': nat | e < e' < |s|
      ensures !SplitAt(s, q, e')
    {
      if e' + 3 <= |s| {
        assert s[e'..e' + 3][0] == s[e'] && s[e'..e' + 3][1] == s[e' + 1];
      }
    }
  }

  /**
   * Where the patterns land in `Prefix + wkt + "', " + t`: the match starts
   * at 0, the split is right after the WKT and the close is the final `)`.
   */
  lemma LocateWritten(wkt: string, t: string)
    requires WktSafe(wkt)
    requires |t| >= 2 && t[|t| - 1] == ')' && '\n' !in t && NoQuoteComma(t)
    ensures Locate(Prefix + wkt + "', " + t) == Some(Match(0, |Prefix| + |wkt|, |Prefix| + |wkt| + 2 + |t|))
  {
    var s := Prefix + wkt + "', " + t;
    var q := |Prefix|;
    var e := q + |wkt|;
    assert s[q..e] == wkt;
    assert s[e..e + 3] == "', ";
    assert s[e + 3..] == t;
    assert s[e + 3..|s| - 1] == t[..|t| - 1];
    CloseIsLast(s, e + 3);
    assert SplitAt(s, q, e);
    forall k | e < k < |s| - 1
      ensures !(s[k] == '\'' && s[k + 1] == ',')
    {
      if k < e + 3 {
        assert s[k] == "', "[k - e];
      } else {
        assert s[k] == t[k - (e + 3)] && s[k + 1] == t[k + 1 - (e + 3)];
      }
    }
    SplitIsLast(s, q, e);
    assert s[0..|Prefix|] == Prefix;
    assert MatchesAt(s, 0);
  }

  lemma LocateGeomFromText(wkt: string, srid: int, isMaria: bool)
    requires WktSafe(wkt)
    ensures Locate(GeomFromText(wkt, srid, isMaria))
         == Some(Match(0, |Prefix| + |wkt|, |GeomFromText(wkt, srid, isMaria)| - 1))
  {
    TailShape(srid, isMaria);
    LocateWritten(wkt, Tail(srid, isMaria));
  }

  /** The captures of `Prefix + wkt + "', " + t` are the WKT and t without its final `)`. */
  lemma ExtractWritten(wkt: string, t: string)
    requires WktSafe(wkt)
    requires |t| >= 2 && t[|t| - 1] == ')' && '\n' !in t && NoQuoteComma(t)
    ensures ExtractWkt(Prefix + wkt + "', " + t) == Some(wkt)
    ensures SridText(Prefix + wkt + "', " + t) == Some(t[..|t| - 1])
  {
    var s := Prefix + wkt + "', " + t;
    var q := |Prefix|;
    var e := q + |wkt|;
    LocateWritten(wkt, t);
    assert s[q..e] == wkt;
    assert s[e + 3..|s| - 1] == t[..|t| - 1];
  }

  /** Extracting from a written expression gives back the WKT and the SRID text. */
  lemma ExtractGeomFromText(wkt: string, srid: Int64, isMaria: bool)
    requires WktSafe(wkt)
    ensures ExtractWkt(GeomFromText(wkt, srid, isMaria)) == Some(wkt)
    ensures SridText(GeomFromText(wkt, srid, isMaria)) == Some(IntToString(srid) + Suffix(isMaria))
    ensures ExtractSrid(GeomFromText(wkt, srid, isMaria)) == Some(srid)
  {
    var t := Tail(srid, isMaria);
    TailShape(srid, isMaria);
    ExtractWritten(wkt, t);
    assert t[..|t| - 1] == IntToString(srid) + Suffix(isMaria);
    IntCastOfRendered(srid, Suffix(isMaria));
  }

  /**
   * Reading back what `set` wrote gives `fromWkt` exactly the geometry's
   * WKT and SRID, on either dialect.
   */
  lemma GetInvertsSet(className: string, g: Geometry, isMaria: bool)
    requires InstanceOf(g, className) && WktSafe(g.wkt)
    ensures Set(className, Geom(g), isMaria).StoredExpression?
    ensures Get(className, RawExpression(Set(className, Geom(g), isMaria).sql))
         == FromWkt(className, g.wkt, g.srid)
  {
    var sql := GeomFromText(g.wkt, g.srid, isMaria);
    SetWritesGeomFromText(className, g, isMaria);
    ExtractGeomFromText(g.wkt, g.srid, isMaria);
    GetOfExtracted(className, sql, g.wkt, g.srid);
  }

  lemma SetWritesGeomFromText(className: string, g: Geometry, isMaria: bool)
    requires InstanceOf(g, className)
    ensures Set(className, Geom(g), isMaria) == StoredExpression(GeomFromText(g.wkt, g.srid, isMaria))
  {
  }

  lemma GetOfExtracted(className: string, sql: string, wkt: string, srid: Int64)
    requires ExtractWkt(sql) == Some(wkt) && ExtractSrid(sql) == Some(srid)
    ensures Get(className, RawExpression(sql)) == FromWkt(className, wkt, srid)
  {
  }

  /**
   * A point stored with SRID 4326 is read back with SRID 4326 (the case the
   * model-record tests for points and line strings check).
   */
  lemma StoredSrid4326(className: string, g: Geometry, isMaria: bool)
    requires InstanceOf(g, className) && WktSafe(g.wkt) && g.srid == 4326
    ensures Set(className, Geom(g), isMaria).StoredExpression?
    ensures Get(className, RawExpression(Set(className, Geom(g), isMaria).sql)) == FromWkt(className, g.wkt, 4326)
  {
    GetInvertsSet(className, g, isMaria);
  }
}
