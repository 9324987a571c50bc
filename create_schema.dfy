/** The `CREATE SCHEMA` query and its builder (src/ql/create/schema.rs). */
module CreateSchemaQuery {
  import opened Options
  import opened Errors
  import opened Queries

  /** A `CREATE SCHEMA` query: the name of the schema to create. */
  datatype CreateSchema = CreateSchema(name: string)

  /** The name `build` reports when no schema name was set. */
  const NameField := "CreateSchemaBuilder.name"

  /** Accumulates the schema name. */
  datatype CreateSchemaBuilder = CreateSchemaBuilder(name: Option<string>)
  {
    /** Sets the schema name, replacing any earlier one. */
    function Name(n: string): (b: CreateSchemaBuilder)
      ensures b.name == Some(n)
    {
      this.(name := Some(n))
    }

    /**
      Builds the query: it succeeds exactly when a name is set, wrapping a
      `CreateSchema` with that name, and otherwise fails with
      `RequiredFieldIsNone`. The name is unwrapped only once known present.
    */
    function Build(): (r: QlResult<Query<CreateSchema>>)
      ensures r.Ok? <==> name.Some?
      ensures r.Err? ==> r.error == RequiredFieldIsNone(NameField)
      ensures r.Ok? ==> Some(r.value.query.name) == name
    {
      if name.None? then Err(RequiredFieldIsNone(NameField))
      else Ok(Query(CreateSchema(name.value)))
    }
  }

  /** Setting the name twice keeps only the last one. */
  lemma NameLastWriteWins(b: CreateSchemaBuilder, n1: string, n2: string)
    ensures b.Name(n1).Name(n2) == b.Name(n2)
  {
  }

  /** Whatever the builder held before, naming it makes `build` return a query for that name. */
  lemma NameThenBuild(b: CreateSchemaBuilder, n: string)
    ensures b.Name(n).Build() == Ok(Query(CreateSchema(n)))
  {
  }
}
