/**
  The value model and the cache's data shapes (src/lib.rs): column data types,
  column values with Rust's fixed-width integer payloads, and the
  cache -> table -> row nesting with plain maps in place of concurrent ones.
*/
module Values {
  import opened Options

  // Rust's fixed-width integers, each with exactly its type's range MIN..=MAX.
  newtype Int8 = x: int | -0x80 <= x < 0x80
  newtype Int16 = x: int | -0x8000 <= x < 0x8000
  newtype Int32 = x: int | -0x8000_0000 <= x < 0x8000_0000
  newtype Int64 = x: int | -0x8000_0000_0000_0000 <= x < 0x8000_0000_0000_0000
  newtype Int128 = x: int
    | -0x8000_0000_0000_0000_0000_0000_0000_0000 <= x < 0x8000_0000_0000_0000_0000_0000_0000_0000
  newtype UInt8 = x: int | 0 <= x < 0x100
  newtype UInt16 = x: int | 0 <= x < 0x1_0000
  newtype UInt32 = x: int | 0 <= x < 0x1_0000_0000
  newtype UInt64 = x: int | 0 <= x < 0x1_0000_0000_0000_0000
  newtype UInt128 = x: int | 0 <= x < 0x1_0000_0000_0000_0000_0000_0000_0000_0000

  /** The data type of a column: ten integer widths and text. */
  datatype ColumnDataType =
    | I8 | I16 | I32 | I64 | I128
    | U8 | U16 | U32 | U64 | U128
    | String
  {
    predicate IsInteger() {
      !String?
    }

    predicate IsSigned() {
      I8? || I16? || I32? || I64? || I128?
    }
  }

  /** The value of a column. There is no null variant. */
  datatype ColumnValue =
    | I8(i8: Int8)
    | I16(i16: Int16)
    | I32(i32: Int32)
    | I64(i64: Int64)
    | I128(i128: Int128)
    | U8(u8: UInt8)
    | U16(u16: UInt16)
    | U32(u32: UInt32)
    | U64(u64: UInt64)
    | U128(u128: UInt128)
    | String(text: string)

  /** A column declaration: its data type and whether its values may be null. */
  type ColumnSpec = (ColumnDataType, bool)

  /** A row: one value per column name. */
  datatype CacheTableRow = CacheTableRow(columnValues: map<string, ColumnValue>)

  /** A table: its name, its declared columns and its rows keyed by a 64-bit unsigned id. */
  datatype CacheTable = CacheTable(
    name: string,
    columns: map<string, ColumnSpec>,
    rows: map<UInt64, CacheTableRow>)

  /** The cache: tables by name. */
  datatype QlCache = QlCache(cache: map<string, CacheTable>)

  /** Every data type, once each, in declaration order. */
  const DataTypes: seq<ColumnDataType> :=
    [ColumnDataType.I8, ColumnDataType.I16, ColumnDataType.I32, ColumnDataType.I64,
     ColumnDataType.I128, ColumnDataType.U8, ColumnDataType.U16, ColumnDataType.U32,
     ColumnDataType.U64, ColumnDataType.U128, ColumnDataType.String]

  /** The smallest value of an integer data type (Rust's `MIN`). */
  function MinValue(t: ColumnDataType): int
    requires t.IsInteger()
  {
    match t
    case I8 => -0x80
    case I16 => -0x8000
    case I32 => -0x8000_0000
    case I64 => -0x8000_0000_0000_0000
    case I128 => -0x8000_0000_0000_0000_0000_0000_0000_0000
    case U8 | U16 | U32 | U64 | U128 => 0
  }

  /** The largest value of an integer data type (Rust's `MAX`). */
  function MaxValue(t: ColumnDataType): int
    requires t.IsInteger()
  {
    match t
    case I8 => 0x7F
    case I16 => 0x7FFF
    case I32 => 0x7FFF_FFFF
    case I64 => 0x7FFF_FFFF_FFFF_FFFF
    case I128 => 0x7FFF_FFFF_FFFF_FFFF_FFFF_FFFF_FFFF_FFFF
    case U8 => 0xFF
    case U16 => 0xFFFF
    case U32 => 0xFFFF_FFFF
    case U64 => 0xFFFF_FFFF_FFFF_FFFF
    case U128 => 0xFFFF_FFFF_FFFF_FFFF_FFFF_FFFF_FFFF_FFFF
  }

  /** The number of bits of an integer data type. */
  function Bits(t: ColumnDataType): (b: nat)
    requires t.IsInteger()
    ensures b >= 8
  {
    match t
    case I8 | U8 => 8
    case I16 | U16 => 16
    case I32 | U32 => 32
    case I64 | U64 => 64
    case I128 | U128 => 128
  }

  /** The data type a value belongs to: the variant of the same name. */
  function TypeOf(v: ColumnValue): (t: ColumnDataType)
    ensures t.IsInteger() <==> !v.String?
  {
    match v
    case I8(_) => ColumnDataType.I8
    case I16(_) => ColumnDataType.I16
    case I32(_) => ColumnDataType.I32
    case I64(_) => ColumnDataType.I64
    case I128(_) => ColumnDataType.I128
    case U8(_) => ColumnDataType.U8
    case U16(_) => ColumnDataType.U16
    case U32(_) => ColumnDataType.U32
    case U64(_) => ColumnDataType.U64
    case U128(_) => ColumnDataType.U128
    case String(_) => ColumnDataType.String
  }

  /** A value's payload, forgetting its variant. */
  datatype Payload = Integer(n: int) | Text(s: string)

  /** The payload a value carries. An integer payload lies in its type's range. */
  function PayloadOf(v: ColumnValue): (p: Payload)
    ensures p.Integer? <==> TypeOf(v).IsInteger()
    ensures p.Integer? ==> MinValue(TypeOf(v)) <= p.n <= MaxValue(TypeOf(v))
    ensures p.Text? ==> p.s == v.text
  {
    match v
    case I8(x) => Integer(x as int)
    case I16(x) => Integer(x as int)
    case I32(x) => Integer(x as int)
    case I64(x) => Integer(x as int)
    case I128(x) => Integer(x as int)
    case U8(x) => Integer(x as int)
    case U16(x) => Integer(x as int)
    case U32(x) => Integer(x as int)
    case U64(x) => Integer(x as int)
    case U128(x) => Integer(x as int)
    case String(s) => Text(s)
  }

  /**
    The value of a data type carrying a payload, if the payload fits: the
    inverse of (TypeOf, PayloadOf).
  */
  function MakeValue(t: ColumnDataType, p: Payload): (r: Option<ColumnValue>)
    ensures r.Some? <==>
      (if t.IsInteger() then p.Integer? && MinValue(t) <= p.n <= MaxValue(t) else p.Text?)
    ensures r.Some? ==> TypeOf(r.value) == t && PayloadOf(r.value) == p
  {
    if !t.IsInteger() then
      if p.Text? then Some(ColumnValue.String(p.s)) else None
    else if p.Text? || !(MinValue(t) <= p.n <= MaxValue(t)) then None
    else Some(IntegerValue(t, p.n))
  }

  /** The integer value of data type `t` holding `n`. */
  function IntegerValue(t: ColumnDataType, n: int): ColumnValue
    requires t.IsInteger() && MinValue(t) <= n <= MaxValue(t)
  {
    match t
    case I8 => ColumnValue.I8(n as Int8)
    case I16 => ColumnValue.I16(n as Int16)
    case I32 => ColumnValue.I32(n as Int32)
    case I64 => ColumnValue.I64(n as Int64)
    case I128 => ColumnValue.I128(n as Int128)
    case U8 => ColumnValue.U8(n as UInt8)
    case U16 => ColumnValue.U16(n as UInt16)
    case U32 => ColumnValue.U32(n as UInt32)
    case U64 => ColumnValue.U64(n as UInt64)
    case U128 => ColumnValue.U128(n as UInt128)
  }

  /** A value is rebuilt exactly from its data type and payload. */
  lemma MakeValueOfParts(v: ColumnValue)
    ensures MakeValue(TypeOf(v), PayloadOf(v)) == Some(v)
  {
  }

  /**
    Derived structural equality: two values are equal exactly when they are the
    same variant with equal payloads.
  */
  lemma ValueEquality(a: ColumnValue, b: ColumnValue)
    ensures a == b <==> TypeOf(a) == TypeOf(b) && PayloadOf(a) == PayloadOf(b)
  {
    if TypeOf(a) == TypeOf(b) && PayloadOf(a) == PayloadOf(b) {
      MakeValueOfParts(a);
      MakeValueOfParts(b);
    }
  }

  /** The data types are exactly the eleven variants, one per value variant. */
  lemma DataTypesComplete(t: ColumnDataType)
    ensures t in DataTypes
    ensures |DataTypes| == 11
    ensures forall i, j :: 0 <= i < j < |DataTypes| ==> DataTypes[i] != DataTypes[j]
  {
  }

  /** Every data type is the type of some value, so no data type lacks a value variant. */
  lemma EveryDataTypeHasValues(t: ColumnDataType)
    ensures exists v :: TypeOf(v) == t
  {
    var p := if t.IsInteger() then Integer(0) else Text("");
    assert MakeValue(t, p).Some?;
  }

  /** An integer type's range holds exactly 2^Bits values, signed types centred on zero. */
  lemma RangeMatchesWidth(t: ColumnDataType)
    requires t.IsInteger()
    ensures MaxValue(t) - MinValue(t) + 1 == Pow2(Bits(t))
    ensures MinValue(t) == if t.IsSigned() then 0 - Pow2(Bits(t) - 1) else 0
  {
    Pow2Values();
  }

  function Pow2(n: nat): (r: nat)
    ensures r > 0
  {
    if n == 0 then 1 else 2 * Pow2(n - 1)
  }

  lemma Pow2Values()
    ensures Pow2(7) == 0x80 && Pow2(8) == 0x100
    ensures Pow2(15) == 0x8000 && Pow2(16) == 0x1_0000
    ensures Pow2(31) == 0x8000_0000 && Pow2(32) == 0x1_0000_0000
    ensures Pow2(63) == 0x8000_0000_0000_0000 && Pow2(64) == 0x1_0000_0000_0000_0000
    ensures Pow2(127) == 0x8000_0000_0000_0000_0000_0000_0000_0000
    ensures Pow2(128) == 0x1_0000_0000_0000_0000_0000_0000_0000_0000
  {
    assert Pow2(1) == 2 && Pow2(2) == 4 && Pow2(3) == 8 && Pow2(4) == 16;
    assert Pow2(5) == 32 && Pow2(6) == 64 && Pow2(7) == 0x80 && Pow2(8) == 0x100;
    Pow2Add(8, 7);
    Pow2Add(8, 8);
    Pow2Add(16, 15);
    Pow2Add(16, 16);
    Pow2Add(32, 31);
    Pow2Add(32, 32);
    Pow2Add(64, 63);
    Pow2Add(64, 64);
  }

  lemma {:induction false} Pow2Add(a: nat, b: nat)
    ensures Pow2(a + b) == Pow2(a) * Pow2(b)
  {
    if b > 0 {
      Pow2Add(a, b - 1);
    }
  }
}
