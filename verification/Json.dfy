/** JSON values as they are stored in JSONB columns: key order is not significant,
    and numbers are integers. */
module JsonValues {

  datatype Json =
    | Null
    | Bool(flag: bool)
    | Number(number: int)
    | Text(text: string)
    | List(items: seq<Json>)
    | Object(fields: map<string, Json>)
}
