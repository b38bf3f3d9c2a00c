/** Values that travel through the notification service: the JSON body of an
    incoming request and the record pushed to live WebSocket clients. */
module Payloads {

  datatype Option<+T> = None | Some(value: T)

  /** The destructured `req.body` of both POST endpoints. A field is `None`
      when the key is missing from the JSON body. */
  datatype NotificationRequest = NotificationRequest(
    title: Option<string>,
    body: Option<string>,
    icon: Option<string>)

  /** The object handed to `JSON.stringify` before it is written to a socket.
      A `None` field is a key whose value is `undefined`, which the
      serialiser omits. */
  datatype Message = Message(
    title: Option<string>,
    body: Option<string>,
    icon: Option<string>)

  /** JavaScript truthiness of a request field: a missing key and the empty
      string are falsy, every other string is truthy. */
  predicate Truthy(f: Option<string>) {
    f.Some? && f.value != ""
  }
}
