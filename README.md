# qlcache query layer in Dafny

This project models the implemented part of qlcache, an in-memory
object-relational cache with an SQL-like query language, written in Rust. The
repository is an early skeleton. What it implements is pure and sequential:

- **Value model** (`values.dfy`, from `src/lib.rs`). `ColumnDataType` has ten
  integer widths plus `String`. `ColumnValue` has the same eleven variants, each
  with a payload. Rust's `i8` … `u128` become newtypes `Int8` … `UInt128` whose
  ranges are exactly the Rust `MIN..=MAX`. The cache shapes (`QlCache`,
  `CacheTable`, `CacheTableRow`) are datatypes. Plain `map`s replace the
  concurrent `DashMap`s. Row ids are `UInt64`. A column is declared as a
  `(ColumnDataType, bool)` pair, where the `bool` says whether it may be null.
- **Errors** (`errors.dfy`, from `src/error.rs`). `QlError` and `QueryError`
  mirror the Rust enums. `QlResult<T>` is `Ok(T) | Err(QlError)`.
- **Constraints** (`constraints.dfy`, from `src/ql/constraints.rs`).
  - `ConstraintOp`, the leaf `Constraint` and `ConstraintBuilder`. The builder's
    setters are functional record updates, because the Rust setters consume
    `self` and return it.
  - `build` checks the field name, then the operator, then the value.
  - `ComputableConstraint` is a tree: a leaf, `AndConstraint` or `OrConstraint`.
  - The leaf's `compute` is `todo!()` in the repository, and the trait's
    `compute` takes no row. So `Compute` takes the leaf evaluation as a
    parameter, `holds: Constraint -> bool`, and fixes only the combinators.
- **SORT BY** (`sortby.dfy`, from `src/ql/sortby.rs`). `SortBy.New` and
  `SortOrdering`. `SortBy.Valid` (a non-empty column list) holds of every
  `SortBy` that `New` returns.
- **Query builders**. `CreateSchemaBuilder` and `CreateSchema`
  (`create_schema.dfy`), `Select`, `SelectBuilder` and `SelectScope`
  (`select.dfy`), `CreateTableBuilder` (`create_table.dfy`). `Query<T>` and
  `QueryBuilder::select` are in `query.dfy`, from `src/ql/mod.rs`.

The Rust `unwrap` calls in `ConstraintBuilder::build` and
`CreateSchemaBuilder::build` become `.value` on an `Option`. Dafny accepts
those only where the field is provably `Some`. So verification shows that these
`build` functions never panic, as the comments on their
`#[allow(clippy::missing_panics_doc)]` attributes say.

The model follows the code as it stands:

- `ColumnValue` has no null variant. Nullability exists only as the `bool` in a
  column declaration.
- There is no `Not` combinator.
- `QlCache` maps table names directly to tables. There is no schema level.
- `compute` takes no row.

## Model

| member | source | states |
|---|---|---|
| Values.TypeOf | src/lib.rs:62-99 | a value's data type is an integer type exactly when the value is not a `String` |
| Values.PayloadOf | src/lib.rs:84-99 | a value carries an integer payload exactly when its type is an integer type; that payload lies in the Rust type's `MIN..=MAX` (e.g. `I8` in [-128,127], `U128` in [0,2^128)); a `String` carries its text |
| Values.MakeValue | src/lib.rs:84-99 | a data type and a payload make a value exactly when the payload has the right kind and fits the type's range, and that value has the given type and payload back |
| Values.MakeValueOfParts | src/lib.rs:84-99 | every value is rebuilt exactly from its data type and payload, so no variant carries anything more |
| Values.ValueEquality | src/lib.rs:83-99 | derived `PartialEq`: two values are equal if and only if they are the same variant with equal payloads |
| Values.DataTypesComplete | src/lib.rs:62-78 | there are exactly eleven data types, pairwise distinct: ten integer widths plus `String` |
| Values.EveryDataTypeHasValues | src/lib.rs:61-99 | each data type is the type of some value, so with `TypeOf` the two unions correspond one variant to one variant |
| Values.RangeMatchesWidth | src/lib.rs:86-95 | each integer type's range has exactly 2^bits values; a signed range starts at -2^(bits-1) and an unsigned one at 0 |
| Constraints.Constraint.Builder | src/ql/constraints.rs:38-44 | a fresh builder has field name, operator and value all unset |
| Constraints.ConstraintBuilder.FieldName | src/ql/constraints.rs:71-74 | sets the field name and leaves operator and value unchanged |
| Constraints.ConstraintBuilder.Op | src/ql/constraints.rs:83-86 | sets the operator and leaves field name and value unchanged |
| Constraints.ConstraintBuilder.Value | src/ql/constraints.rs:95-98 | sets the value and leaves field name and operator unchanged |
| Constraints.ConstraintBuilder.Build | src/ql/constraints.rs:108-132 | succeeds if and only if all three fields are set, and then returns exactly the stored parts; a missing field name is reported whatever the others hold; with the field name set, a missing operator is reported next, then a missing value; each unwrap is reached only on `Some` |
| Constraints.FreshBuilderFails | src/ql/constraints.rs:38-113 | building a fresh builder fails naming `Constraint.field_name` |
| Constraints.SettersLastWriteWins | src/ql/constraints.rs:71-98 | setting the same field twice keeps only the second value |
| Constraints.SettersCommute | src/ql/constraints.rs:71-98 | setters of different fields commute, since each replaces only its own field |
| Constraints.BuildRoundTrip | src/ql/constraints.rs:38-132 | `builder().field_name(f).op(o).value(v).build()` returns `Ok` of the constraint `(f, o, v)` |
| Constraints.ChainLastWriteWins | src/ql/constraints.rs:71-98 | after any chain of setter calls, each field holds the argument of the last call that set it, or its earlier value if none did |
| Constraints.ChainBuild | src/ql/constraints.rs:38-132 | after any chain of setter calls on a fresh builder, in any order, `build` succeeds if and only if every field was set, returning the last arguments; otherwise it names the first missing field in the order field name, operator, value |
| Constraints.AndComputes | src/ql/constraints.rs:187-190 | one `AndConstraint` node holds if and only if both operands hold (the node's own definition; the tree-level statement is `AndTreeHoldsIffAllLeaves`) |
| Constraints.OrComputes | src/ql/constraints.rs:214-217 | one `OrConstraint` node holds if and only if at least one operand holds (the node's own definition; the tree-level statement is `OrTreeHoldsIffSomeLeaf`) |
| Constraints.AndTreeHoldsIffAllLeaves | src/ql/constraints.rs:187-190 | the meaning of `AndConstraint`, proved by induction over nested trees: a tree built with `And` only holds if and only if every one of its leaves holds |
| Constraints.OrTreeHoldsIffSomeLeaf | src/ql/constraints.rs:214-217 | the meaning of `OrConstraint`, proved by induction over nested trees: a tree built with `Or` only holds if and only if some leaf holds |
| Constraints.ComputeDependsOnlyOnLeaves | src/ql/constraints.rs:187-217 | a tree's result depends only on how its own leaves evaluate |
| Constraints.ComputeMonotone | src/ql/constraints.rs:187-217 | if every leaf that holds under one leaf evaluation also holds under another, a tree that holds under the first holds under the second |
| Sorting.SortBy.New | src/ql/sortby.rs:28-39 | fails with `VecCannotBeEmpty("Sortby.columns")` if and only if the column list is empty; otherwise it returns a valid (non-empty) `SortBy` with the columns unchanged and in order, and with the given ordering, or `Ascending` when none is given |
| Sorting.NewDefaultsToAscending | src/ql/sortby.rs:35-37 | with no ordering given, `new` on a non-empty list returns that list sorted `Ascending` |
| Sorting.NewRecoversValid | src/ql/sortby.rs:28-39 | a `SortBy` is returned unchanged by `new` given its own columns and ordering if and only if its column list is non-empty |
| Queries.QueryBuilder.Select | src/ql/mod.rs:35-37 | `QueryBuilder::select` returns a select builder with nothing set |
| CreateSchemaQuery.CreateSchemaBuilder.Name | src/ql/create/schema.rs:48-51 | sets the schema name to the given one, replacing any earlier one |
| CreateSchemaQuery.CreateSchemaBuilder.Build | src/ql/create/schema.rs:61-73 | succeeds if and only if the name is set, returning a `CreateSchema` query with that name; otherwise fails with `RequiredFieldIsNone("CreateSchemaBuilder.name")`; the unwrap is reached only on `Some` |
| CreateSchemaQuery.NameLastWriteWins | src/ql/create/schema.rs:48-51 | naming twice keeps only the last name |
| CreateSchemaQuery.NameThenBuild | src/ql/create/schema.rs:48-73 | whatever the builder held, `name(n).build()` returns the query `CreateSchema { name: n }` |
| SelectQuery.Select.Builder | src/ql/select.rs:9-14 | a fresh select builder has neither a table name nor a scope |
| SelectQuery.SelectBuilder.TableName | src/ql/select.rs:25-28 | sets the table name and leaves the scope unchanged |
| SelectQuery.TableNameLastWriteWins | src/ql/select.rs:25-28 | repeated `table_name` calls keep only the last value |
| CreateTableQuery.CreateTableBuilder.Name | src/ql/create/table.rs:20-23 | sets the table name, so afterwards it is never unset |
| CreateTableQuery.NameLastWriteWins | src/ql/create/table.rs:20-23 | `name(a).name(b)` holds `b`, and `name(n).name(n)` equals `name(n)` |

## Left out

- Concurrency. The `DashMap` fields are sequential maps. The `Send`/`Sync`
  static assertions have no counterpart, because lock discipline is not
  expressible in this pure model.
- `Constraint::compute` (src/ql/constraints.rs:48-50) is `todo!()`. Its leaf
  evaluation is a parameter of `ComputableConstraint.Compute`. No comparison
  semantics for `Eq`, `Lt`, `Gt`, `Le` and `Ge` are assumed.
- `CreateSchema::execute` (src/ql/create/schema.rs:28-30) and `QlCache::query`
  (src/impl.rs:14-16) are `todo!()`, so they have no behaviour to model.
- The `QueryKind` trait and its associated result type (src/ql/mod.rs:16,
  src/ql/create/schema.rs:25-31) disagree with each other. `Query<T>` is modelled
  as a plain wrapper around the query value.
- Schema and table existence checks, select execution, filtering, sorting,
  projection, primary keys and row insertion. The repository does not implement
  any of them.
- The crate as shown does not build. `src/lib.rs` declares no `error` module,
  although `constraints.rs` and `sortby.rs` use one. `src/ql/mod.rs` declares
  only `constraints` and `select`, so `sortby.rs` and the `create` files are
  outside the module tree. `Constraint` and `ConstraintBuilder` derive `Eq`
  over `ColumnValue`, which derives only `PartialEq`. `AndConstraint` and
  `OrConstraint` derive `Clone` over boxed trait objects. The model follows
  each file's evident meaning.
- `CreateBuilder::table` (src/ql/create/mod.rs:34-37) initialises a `columns`
  field that `CreateTableBuilder` does not declare. The model follows the struct
  declaration, which has only `name`.
- `src/ql.rs` and `src/ql/create.rs`. They are older data-only enums with no
  behaviour.
- `src/ql/key.rs` is a newtype without validation, and `src/ql/lexeme.rs` is
  an empty enum.
- The benchmarks call APIs that the repository does not define.
- Short-circuiting of `&&` and `||` in `AndConstraint`/`OrConstraint`. The leaf
  evaluation is a total function here, so evaluation order cannot change a
  result.
