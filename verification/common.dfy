/** Datatypes shared by the modules. */
module Common {
  datatype Option<+T> = None | Some(value: T)

  datatype Result<+T, +E> = Ok(value: T) | Err(error: E)

  /** Parsed JSON; numbers by their numeral, objects with their members in order. */
  datatype Json = Null | Bool(bool) | Number(numeral: string) | String(string) | List(seq<Json>) | Object(seq<(string, Json)>)
}
