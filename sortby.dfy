/** `SORT BY` (src/ql/sortby.rs): the columns to sort by and the direction. */
module Sorting {
  import opened Options
  import opened Errors

  /** The direction of a sort. */
  datatype SortOrdering = Ascending | Descending

  /** The name `new` reports when the column list is empty. */
  const ColumnsVec := "Sortby.columns"

  /** Sort by `columns`, in that order of precedence, in direction `order`. */
  datatype SortBy = SortBy(columns: seq<string>, order: SortOrdering)
  {
    /** Every `SortBy` that `New` returns sorts by at least one column. */
    predicate Valid() {
      |columns| > 0
    }

    /**
      `SortBy::new`: rejects an empty column list with `VecCannotBeEmpty`;
      otherwise keeps the columns as given and uses `order`, `Ascending` when
      none is given.
    */
    static function New(columns: seq<string>, order: Option<SortOrdering>): (r: QlResult<SortBy>)
      ensures r.Err? <==> columns == []
      ensures r.Err? ==> r.error == VecCannotBeEmpty(ColumnsVec)
      ensures r.Ok? ==> r.value.Valid() && r.value.columns == columns
      ensures r.Ok? ==> r.value.order == (if order.Some? then order.value else Ascending)
    {
      if columns == [] then Err(VecCannotBeEmpty(ColumnsVec))
      else Ok(SortBy(columns, if order.Some? then order.value else Ascending))
    }
  }

  /** With no ordering given, the sort is ascending. */
  lemma NewDefaultsToAscending(columns: seq<string>)
    requires columns != []
    ensures SortBy.New(columns, None) == Ok(SortBy(columns, Ascending))
  {
  }

  /** A `SortBy` is obtained from `New` exactly when it is valid, and `New` gives it back unchanged. */
  lemma NewRecoversValid(s: SortBy)
    ensures s.Valid() <==> SortBy.New(s.columns, Some(s.order)) == Ok(s)
  {
  }
}
