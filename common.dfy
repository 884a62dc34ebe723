/** Shared result types and the Python truthiness test used by the request handlers. */
module Common {

  datatype Option<T> = None | Some(value: T)

  /** The failures the handlers can end in. */
  datatype Error =
    | Unavailable                 // the database handle is None
    | InvalidId                   // the id string is not a valid ObjectId
    | NotFound                    // no application has that id
    | Invalid(fields: set<string>) // schema validation failed on these fields
    | MissingKey(key: string)     // dict.pop of an absent key
    | UnsupportedId               // str() of an _id that is neither an ObjectId nor a string
    | NotAnArray(field: string)   // $push onto a field that holds no array
    | ImmutableId                 // an update that would rewrite _id
    | Conflict(field: string)     // one update both sets and pushes the same field

  datatype Result<T> = Ok(value: T) | Err(error: Error)

  /** Python truthiness of an optional string: None and "" are falsy. */
  predicate Truthy(s: Option<string>) {
    s.Some? && s.value != ""
  }
}
