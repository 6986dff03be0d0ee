/**
 * The exceptions the tool layer raises, and the text `str(exc)` gives for
 * each of them.
 */
module Errors {
  import opened Values

  datatype Error =
    | EmptyContent                          // _parse: content is None or ""
    | ContentNotObject                      // _parse: the JSON text is not an object
    | MalformedJson(detail: string)         // json.loads raised JSONDecodeError
    | LoadsTypeError(content: Value)        // json.loads was given a non-string
    | KeyMissing(key: string)               // KeyError from data[key]
    | ListIndexedByKey                      // TypeError from list[key]
    | NoAttribute(receiver: Value, attribute: string)  // AttributeError
    | NotIterable(iterated: Value)          // TypeError from `for c in v`
    | NotContainer(searched: Value)         // TypeError from `ch in v`
    | InvalidName(name: Value)              // _ident
    | InvalidColumnType(columnType: Value)  // the column-type allow-list
    | ColumnsRequired
    | ValuesRequired
    | SetRequired
    | WhereRequired
    | DatabaseError(detail: string)         // any psycopg2.Error, after rollback

  datatype Result<+T> = Ok(value: T) | Err(error: Error) {
    predicate IsFailure() { Err? }
    function PropagateFailure<U>(): Result<U> requires Err? { Err(error) }
    function Extract(): T requires Ok? { value }
  }

  /** `str(exc)` for each exception. */
  function Message(e: Error, py: Builtins): string {
    match e
    case EmptyContent => "content boş. JSON string bekleniyor."
    case ContentNotObject => "content bir JSON obje olmalı."
    case MalformedJson(detail) => detail
    case LoadsTypeError(v) => "the JSON object must be str, bytes or bytearray, not " + TypeName(v)
    case KeyMissing(key) => "'" + key + "'"
    case ListIndexedByKey => "list indices must be integers or slices, not str"
    case NoAttribute(v, attribute) => "'" + TypeName(v) + "' object has no attribute '" + attribute + "'"
    case NotIterable(v) => "'" + TypeName(v) + "' object is not iterable"
    case NotContainer(v) => "argument of type '" + TypeName(v) + "' is not iterable"
    case InvalidName(v) => "Geçersiz isim: " + Show(v, py)
    case InvalidColumnType(v) => "Geçersiz/izin verilmeyen kolon tipi/kısıtı: " + py.repr(v)
    case ColumnsRequired => "'columns' dict olmalı ve boş olmamalı."
    case ValuesRequired => "'values' dict olmalı ve boş olmamalı."
    case SetRequired => "'set' dict olmalı ve boş olmamalı."
    case WhereRequired => "Güvenlik için WHERE zorunludur."
    case DatabaseError(detail) => detail
  }
}
