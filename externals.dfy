/** What the normaliser receives from outside: the session, and the three
    helpers it imports from the data layer (`parse` from data/types,
    `getFileURL` from data/files and `fromPronote` from data/objects). Their
    code is not part of this model, so they are carried as function values.
    Nothing is assumed about what they compute, but as function values they
    are total, deterministic and never throw. */
module Externals {
  import opened JsValue

  /** The active session. `roleName` is `session.type.name`; `context` stands
      for everything else the session holds, which only `getFileURL` reads. */
  datatype Session = Session(roleName: string, context: Value)

  datatype Collaborators = Collaborators(
    /** `parse(raw)`: unwraps one of the portal's wrapped values. */
    parse: Value -> Value,
    /** `parse(raw, mapper)` and `parse(raw, mapper, listKey)`: unwraps a
        wrapped list and maps `mapper` over its elements. */
    parseWith: (Value, Value -> Value, Option<string>) -> Value,
    /** `fromPronote(res)`: the generic fields of a portal resource. */
    fromPronote: Value -> map<string, Value>,
    /** `fromPronote(res, extra)`: the same, extended by fields that `extra`
        computes from the raw resource. */
    fromPronoteWith: (Value, Value -> map<string, Value>) -> map<string, Value>,
    /** `getFileURL(session, file)`: the address of a downloadable file. */
    fileURL: (Session, Value) -> Value
  )
}
