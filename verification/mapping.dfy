/**
 * The mapping vocabulary the executors and builders exchange: statements,
 * their bound SQL and parameter mappings, and row bounds.  Only the parts
 * the modelled code reads are kept.
 */
module Mapping {
  import opened Lang
  import opened Caches
  import opened CacheKeys

  datatype StatementType = Statement | Prepared | Callable

  datatype SqlCommandType = Unknown | Insert | Update | Delete | Select | Flush

  datatype ParameterMode = In | Out | InOut

  datatype LocalCacheScope = SessionScope | StatementScope

  /** One `#{...}` placeholder: the property it reads and how it is bound. */
  datatype ParameterMapping = ParameterMapping(
    property: string,
    mode: ParameterMode,
    javaType: string,
    jdbcType: Option<string>,
    numericScale: Option<int>,
    resultMapId: Option<string>,
    typeHandler: Option<string>,
    jdbcTypeName: Option<string>)

  /** The SQL text after dynamic evaluation, with its placeholders and the extra bindings made while evaluating. */
  datatype BoundSql = BoundSql(sql: string, parameterMappings: seq<ParameterMapping>, additionalParameters: map<string, Obj>)

  /**
   * PropertyTokenizer's name of a property path: the part before the first
   * '.', cut again before a '[' index.  Both cuts together stop at the
   * first '.' or '['.
   */
  function FirstSegment(path: string): (r: string)
    ensures r <= path
    ensures forall i :: 0 <= i < |r| ==> r[i] != '.' && r[i] != '['
    ensures |r| < |path| ==> path[|r|] == '.' || path[|r|] == '['
    decreases |path|
  {
    if path == [] || path[0] == '.' || path[0] == '[' then []
    else [path[0]] + FirstSegment(path[1..])
  }

  datatype RowBounds = RowBounds(offset: Int32, limit: Int32)

  const NoRowBounds := RowBounds(0, 0x7FFF_FFFF)

  /** A registered statement, with the shared cache it uses (if any). */
  datatype MappedStatement = MappedStatement(
    id: string,
    statementType: StatementType,
    sqlCommandType: SqlCommandType,
    flushCacheRequired: bool,
    useCache: bool,
    cache: Option<Cache<Fingerprint>>)

  /**
   * The parts of the global configuration an executor consults.  Type
   * handler lookup, reflective property access, ArrayUtil.hashCode and the
   * result extractor are not modelled and appear as functions.
   */
  datatype Configuration = Configuration(
    environmentId: Option<string>,
    localCacheScope: LocalCacheScope,
    hasTypeHandler: Obj -> bool,
    propertyValue: (Obj, string) -> Obj,
    hasher: Hasher,
    extract: (Obj, string) -> Obj)

  /** BoundSql.hasAdditionalParameter: the path's first segment is an additional parameter. */
  predicate HasAdditionalParameter(boundSql: BoundSql, path: string) {
    FirstSegment(path) in boundSql.additionalParameters
  }

  /**
   * BoundSql.getAdditionalParameter: the path read through a meta object
   * over the additional parameters.  A path that is a single segment is
   * that parameter's entry; a longer one (`__frch_item_0.id`) is read by
   * the configuration's property access, starting from the parameter map.
   */
  function AdditionalParameter(config: Configuration, boundSql: BoundSql, path: string): Obj {
    if FirstSegment(path) == path then Lookup(boundSql.additionalParameters, path)
    else config.propertyValue(MapObj(boundSql.additionalParameters, false), path)
  }
}
