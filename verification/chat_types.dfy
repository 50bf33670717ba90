/** The records the chat route works on: conversation messages as the client posts
    them, vector-store matches, and the errors the route can raise. */
module ChatTypes {
  import opened Wrappers

  /** One conversation turn. The route never inspects `role`, so any string passes
      through; `"system"`, `"user"` and `"assistant"` are the values clients use. */
  datatype Message = Message(role: string, content: string)

  const SystemRole: string := "system"
  const UserRole: string := "user"

  /** One match returned by the vector index: its identifier and its metadata object.
      Metadata values are kept as the text a template literal renders them to;
      `metadata` is `None` when the stored record carries no metadata. */
  datatype Match = Match(id: string, metadata: Option<map<string, string>>)

  /** An error that propagates out of the handler or into the response stream. */
  datatype JsError =
    | TypeError(expression: string)  // a property read on `undefined`, or a refused stream operation
    | Rejected(reason: string)       // an external client's promise rejected or its iterator threw
}
