# Spatial SQL expressions for an Eloquent spatial package

This project models two pieces of the Laravel spatial package that wrap a geometry in raw SQL.

- **The attribute cast** (`GeometryCast`). On write it turns a geometry into the raw expression
  `ST_GeomFromText('<wkt>', <srid>)` on MariaDB, and into
  `ST_GeomFromText('<wkt>', <srid>, 'axis-order=long-lat')` on other engines. On read it
  re-parses such an expression with two fixed regular expressions and PHP's `(int)` cast, or
  hands a binary value to `fromWkb`.
- **The query builder** (`SpatialQuery.SpatialBuilder`). Each public method appends one raw
  fragment (`ST_DISTANCE`, `ST_DISTANCE_SPHERE`, `ST_WITHIN`, …, `ST_SRID`) to the select,
  where or order list of the query, and returns the builder itself.

A geometry is opaque: its class name, the classes it is an instance of, the text `toWkt()`
returns and its `srid` (a 64-bit PHP `int`). `fromWkt` and `fromWkb` are not interpreted: `Get`
returns which of them is called, on which class, with which arguments.

The central property is the round trip through the
cast (`GeometryCast.GetInvertsSet`). Suppose a geometry's WKT is non-empty and contains no `'`
and no newline. Then reading back the expression that `set` wrote calls `fromWkt`
with exactly that WKT and SRID, on both dialects. The regular expressions are written out as
greedy searches (`LastSplit`, `LastClose`, leftmost `MatchFrom`), with `.` matching anything
but a newline. The SRID pattern's greedy capture takes everything up to the last `)`. On
non-MariaDB engines that is `<srid>, 'axis-order=long-lat'`, which `ExtractGeomFromText`
states outright. Only the leading-integer reading of `(int)` (`PhpRuntime.IntCastOfRendered`)
recovers the SRID from it.

The two patterns accept exactly the same strings and split them at the same `', `. So one
`Locate` finds the match, and the two extractors read their own capture from it.

The exception message for a wrong-typed value names `static::class`, the cast class itself,
not the configured geometry class. The model keeps this as written.

Modules: `PhpRuntime` (`php.dfy`), `GeometryCast` (`geometry_cast.dfy`), `SpatialQuery`
(`spatial_builder.dfy`). The cast is pure and is modelled as functions. The builder updates the
query in place and is modelled as a class whose methods modify `columns`, `wheres` and `orders`.
The connection's `isMaria()` is a constant field of the builder and a parameter of `Set`.

## Model

| member | source | states |
|---|---|---|
| `GeometryCast.Set` | src/GeometryCast.php:59-83 | a falsy value gives null; a truthy value that is not an instance of the configured class gives InvalidArgument with message `Expected <cast class>, <class or gettype> given.`; a geometry gives exactly `ST_GeomFromText('<wkt>', <srid>)` on MariaDB and `ST_GeomFromText('<wkt>', <srid>, 'axis-order=long-lat')` otherwise |
| `GeometryCast.Get` | src/GeometryCast.php:34-48 | null, `""` and `"0"` give no geometry; any other string goes unchanged to `fromWkb` of the configured class; an expression reaches `fromWkt` only with the two extracted captures, and fails exactly when the pattern does not match |
| `GeometryCast.ExtractWkt` | src/GeometryCast.php:85-90 | the WKT capture, when there is one, is non-empty and newline-free |
| `GeometryCast.SridText` | src/GeometryCast.php:92-97 | the SRID capture, when there is one, is non-empty and newline-free |
| `GeometryCast.ExtractSrid` | src/GeometryCast.php:92-97 | the SRID is `(int)` of the SRID capture, and exists exactly when the capture does |
| `GeometryCast.LastClose` | src/GeometryCast.php:87 | the greedy `.+\)` ends at the last `)` reachable without a newline, and at no later one |
| `GeometryCast.LastSplit` | src/GeometryCast.php:87 | the greedy first `(.+)` ends at the last viable `', `, and no later split lets the rest of the pattern match |
| `GeometryCast.MatchFrom` | src/GeometryCast.php:94 | the match found is the leftmost start at which the pattern matches, with its greedy split and close |
| `GeometryCast.TailShape` | src/GeometryCast.php:78-82 | after the WKT the written text ends in `)`, has no newline and has no `'` followed by `,` |
| `GeometryCast.LocateWritten` | src/GeometryCast.php:87-96 | in `ST_GeomFromText('<wkt>', <tail>` the match starts at 0, splits right after the WKT and closes at the final `)` |
| `GeometryCast.ExtractWritten` | src/GeometryCast.php:87-96 | in `ST_GeomFromText('<wkt>', <tail>` the WKT capture is the WKT and the SRID capture is the tail without its final `)` |
| `GeometryCast.LocateGeomFromText` | src/GeometryCast.php:78-96 | the same for both written dialect forms |
| `GeometryCast.ExtractGeomFromText` | src/GeometryCast.php:78-96 | on both written forms the WKT capture is the WKT, the SRID capture is `<srid>` or `<srid>, 'axis-order=long-lat'`, and the extracted SRID is the SRID |
| `GeometryCast.GetInvertsSet` | src/GeometryCast.php:40-44 | reading back what `set` wrote calls `fromWkt` with exactly the geometry's WKT and SRID, on both dialects |
| `GeometryCast.StoredSrid4326` | tests/Objects/PointTest.php:19-26 | a geometry stored with SRID 4326 is read back with SRID 4326 |
| `PhpRuntime.IntToString` | src/GeometryCast.php:78 | an interpolated `int` is non-empty and made of a leading `-` or digits |
| `PhpRuntime.IntCast` | src/GeometryCast.php:96 | `(int)` of a string with no digit is 0 |
| `PhpRuntime.IntCastOfRendered` | src/GeometryCast.php:96 | `(int)` of a rendered `int` followed by anything that does not start with a digit gives back that `int` |
| `PhpRuntime.DigitsValueOfNatToString` | src/GeometryCast.php:78 | the digits an `int` is rendered with denote that number |
| `SpatialQuery.SpatialBuilder.ToExpression` | src/SpatialBuilder.php:263-280 | a column renders as the name in backticks; a geometry renders as exactly what the cast stores for it on the same connection, and the cast reads that back as the same WKT and SRID |
| `SpatialQuery.SpatialBuilder.SelectStar` | src/SpatialBuilder.php:27-29 | an empty select list becomes `*`; a non-empty one is kept |
| `SpatialQuery.SpatialBuilder.WithDistance` | src/SpatialBuilder.php:21-41 | `*` is selected first only when nothing was selected; exactly one raw select ``ST_DISTANCE(`col`, <expr>) AS <alias>`` is appended, alias `distance` by default; earlier columns, wheres and orders are kept; returns the same builder |
| `SpatialQuery.SpatialBuilder.WhereDistance` | src/SpatialBuilder.php:43-61 | exactly one raw where ``ST_DISTANCE(`col`, <expr>) <op> <value>`` is appended; selects and orders unchanged; returns the same builder |
| `SpatialQuery.SpatialBuilder.OrderByDistance` | src/SpatialBuilder.php:63-79 | exactly one raw order ``ST_DISTANCE(`col`, <expr>) <direction>`` is appended, direction `asc` by default; selects and wheres unchanged |
| `SpatialQuery.SpatialBuilder.WithDistanceSphere` | src/SpatialBuilder.php:81-101 | as `WithDistance`, with `ST_DISTANCE_SPHERE` |
| `SpatialQuery.SpatialBuilder.WhereDistanceSphere` | src/SpatialBuilder.php:103-121 | as `WhereDistance`, with `ST_DISTANCE_SPHERE` |
| `SpatialQuery.SpatialBuilder.OrderByDistanceSphere` | src/SpatialBuilder.php:123-139 | as `OrderByDistance`, with `ST_DISTANCE_SPHERE` |
| `SpatialQuery.SpatialBuilder.WhereWithin` | src/SpatialBuilder.php:141-152 | appends exactly ``ST_WITHIN(`col`, <expr>)`` to the wheres and changes nothing else |
| `SpatialQuery.SpatialBuilder.WhereContains` | src/SpatialBuilder.php:154-165 | appends exactly ``ST_CONTAINS(`col`, <expr>)`` to the wheres and changes nothing else |
| `SpatialQuery.SpatialBuilder.WhereTouches` | src/SpatialBuilder.php:167-178 | appends exactly ``ST_TOUCHES(`col`, <expr>)`` to the wheres and changes nothing else |
| `SpatialQuery.SpatialBuilder.WhereIntersects` | src/SpatialBuilder.php:180-191 | appends exactly ``ST_INTERSECTS(`col`, <expr>)`` to the wheres and changes nothing else |
| `SpatialQuery.SpatialBuilder.WhereCrosses` | src/SpatialBuilder.php:193-204 | appends exactly ``ST_CROSSES(`col`, <expr>)`` to the wheres and changes nothing else |
| `SpatialQuery.SpatialBuilder.WhereDisjoint` | src/SpatialBuilder.php:206-217 | appends exactly ``ST_DISJOINT(`col`, <expr>)`` to the wheres and changes nothing else |
| `SpatialQuery.SpatialBuilder.WhereOverlaps` | src/SpatialBuilder.php:219-230 | appends exactly ``ST_OVERLAPS(`col`, <expr>)`` to the wheres and changes nothing else |
| `SpatialQuery.SpatialBuilder.WhereEquals` | src/SpatialBuilder.php:232-243 | appends exactly ``ST_EQUALS(`col`, <expr>)`` to the wheres and changes nothing else |
| `SpatialQuery.SpatialBuilder.WhereSrid` | src/SpatialBuilder.php:245-261 | appends exactly ``ST_SRID(`col`) <op> <value>`` to the wheres, with no geometry expression, and changes nothing else |

## Left out

- The geometry classes and their WKT, WKB and GeoJSON codecs are not part of this model. `toWkt()` is the geometry's `wkt` field. `fromWkt` and `fromWkb` are only named in `Get`'s result.
- The database connection is a boolean. `Set` takes `isMaria` as a parameter, and the builder keeps it as a constant field.
- Laravel's `Builder`, `Expression`, `DB::raw`, bindings, unions and attribute-cast caching are out. `select('*')`, `selectRaw`, `whereRaw` and `orderByRaw` are appends to the `columns`, `wheres` and `orders` sequences. A where fragment's `and` boolean is not recorded.
- Float arguments are out. A float `value` for the `where*` methods is an opaque pre-rendered text (`Number.FloatNumber`), because PHP's float-to-string conversion is floating-point rendering. Float values given to `set` are not in `Value` at all.
- `PhpRuntime.IntCast` reads whitespace, a sign and digits, and saturates at the 64-bit bounds. It does not model numeric strings with a fraction or an exponent (`"1e3"`). Such text never follows a rendered SRID.
- General regular-expression semantics are out. Only the two fixed patterns are modelled. The round-trip lemmas require a non-empty wkt with no `'` and no newline, because WKT text never contains these.
- Column names, operators, aliases and directions are put into the SQL verbatim, as the source does. Nothing is escaped or validated.
- The cast's `$model`, `$key` and `$attributes` arguments are out. Only the connection's MariaDB flag is used from them.
