/** The `SELECT` query's builder (src/ql/select.rs). */
module SelectQuery {
  import opened Options

  /** What a `SELECT` returns: whole rows, or only the listed fields. */
  datatype SelectScope = Everything | Fields(fields: seq<string>)

  /** The `Select` query kind; its builder is its only member so far. */
  datatype Select = Select
  {
    /** `Select::builder`: no table name and no scope. */
    static function Builder(): (b: SelectBuilder)
      ensures b.tableName == None && b.scope == None
    {
      SelectBuilder(None, None)
    }
  }

  /** Accumulates the table name and the scope of a `SELECT`. */
  datatype SelectBuilder = SelectBuilder(tableName: Option<string>, scope: Option<SelectScope>)
  {
    /** Sets the table name, replacing any earlier one; the scope is untouched. */
    function TableName(t: string): (b: SelectBuilder)
      ensures b.tableName == Some(t) && b.scope == scope
    {
      this.(tableName := Some(t))
    }
  }

  /** Repeated `table_name` calls keep only the last value. */
  lemma TableNameLastWriteWins(b: SelectBuilder, t1: string, t2: string)
    ensures b.TableName(t1).TableName(t2) == b.TableName(t2)
  {
  }
}
