/** The query wrapper and the query builder entry point (src/ql/mod.rs). */
module Queries {
  import SelectQuery

  /** `Query<T>`: a built query of kind `T`. */
  datatype Query<+T> = Query(query: T)

  /** `QueryBuilder`: the entry point for building queries. */
  datatype QueryBuilder = QueryBuilder
  {
    /** `QueryBuilder::select`: the builder of a `SELECT` query, with nothing set yet. */
    static function Select(): (b: SelectQuery.SelectBuilder)
      ensures b.tableName.None? && b.scope.None?
    {
      SelectQuery.Select.Builder()
    }
  }
}
