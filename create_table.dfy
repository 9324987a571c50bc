/** The `CREATE TABLE` query's builder (src/ql/create/table.rs). */
module CreateTableQuery {
  import opened Options

  /** Accumulates the name of the table to create. */
  datatype CreateTableBuilder = CreateTableBuilder(name: Option<string>)
  {
    /** Sets the table name, replacing any earlier one. */
    function Name(n: string): (b: CreateTableBuilder)
      ensures b.name == Some(n)
    {
      this.(name := Some(n))
    }
  }

  /** `name(a).name(b)` holds `b`, and naming twice with the same name is naming once. */
  lemma NameLastWriteWins(b: CreateTableBuilder, n1: string, n2: string)
    ensures b.Name(n1).Name(n2) == b.Name(n2)
    ensures b.Name(n1).Name(n1) == b.Name(n1)
  {
  }
}
