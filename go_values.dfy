/**
 * The dynamically typed values that the Go server passes around as
 * `interface{}`: analyzer results are `map[string]interface{}` trees whose
 * leaves are float64, int, int64, string or bool; the EXIF analyzer instead
 * returns a `*EXIFData` pointer.  Each Go dynamic type is its own
 * constructor, because the accessors switch on the exact type.
 */
module GoValues {
  import opened Common

  /** The EXIF analyzer's record: DateTime and GPS are pointers that may be nil. */
  datatype ExifData = ExifData(
    dateTime: Option<string>,
    make: string,
    model: string,
    gps: Option<(real, real)>,
    raw: seq<int>)

  datatype Json =
    | JFloat(f: real)                      // float64
    | JInt(i: int)                         // int (64-bit platform)
    | JInt64(i64: int)                     // int64
    | JStr(s: string)                      // string
    | JBool(b: bool)                       // bool
    | JObj(fields: map<string, Json>)      // map[string]interface{}
    | JArr(items: seq<Json>)               // []interface{}
    | JFloatMap(floats: map<string, real>) // map[string]float64
    | JExif(exif: Option<ExifData>)        // *EXIFData, None for a nil pointer
    | JNull                                // untyped nil

  type Object = map<string, Json>
}
