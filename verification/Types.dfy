/** Shared types: positions, errors, entries, table values and commands.
    Serialized payloads are kept typed; only primary keys are turned into bytes (see KeyCodec). */
module RelosCore {

  type LogPos = nat

  const LOG_POS_BEGIN: LogPos := 1

  datatype Option<+T> = None | Some(value: T)

  datatype Error =
    | Sealed(tail: LogPos)
    | Trimmed(pos: LogPos)
    | Serialization
    | StoreError
    | InvalidOperation
    | Internal

  datatype Result<+T> = Ok(value: T) | Err(error: Error)

  type Byte = x: int | 0 <= x < 256

  type Bytes = seq<Byte>

  /** A length that the serializer can write as a 64-bit count. */
  type ShortBytes = b: Bytes | |b| < 0x1_0000_0000_0000_0000

  type Int64 = x: int | -0x8000_0000_0000_0000 <= x < 0x8000_0000_0000_0000

  type Word64 = x: int | 0 <= x < 0x1_0000_0000_0000_0000

  /** Names are the UTF-8 bytes of the source's strings. */
  type Name = Bytes

  datatype Value =
    | Null
    | Int64Value(i: Int64)
    | Utf8Value(text: ShortBytes)
    | BytesValue(bytes: ShortBytes)
    | BoolValue(b: bool)
    | Float64Value(bits: Word64)

  datatype ColumnType = Int64Column | Utf8Column | BytesColumn | BoolColumn | Float64Column

  datatype ColumnDef = ColumnDef(name: Name, colType: ColumnType, nullable: bool)

  datatype TableSchema = TableSchema(name: Name, columns: seq<ColumnDef>, primaryKey: seq<Name>)

  datatype Row = Row(values: seq<Value>)

  datatype TableCommand =
    | CreateTable(schema: TableSchema)
    | DropTable(table: Name)
    | Put(table: Name, row: Row)
    | Delete(table: Name, key: seq<Value>)

  datatype Payload =
    | CommandPayload(cmd: TableCommand)
    | BatchPayload(payloads: seq<Payload>)
    | RawPayload(bytes: Bytes)

  datatype Header = BatchCount(count: nat) | OtherHeader(bytes: Bytes)

  datatype Entry = Entry(headers: map<string, Header>, payload: Payload)

  datatype TableResponse = TableOk | TableError

  datatype ReturnValue = Success | Data(response: TableResponse)
}
