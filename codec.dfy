/** The inbound filter `ChatWebSocket.parse_message`. */
module Codec {
  import opened Wrappers
  import opened Json

  /** An inbound frame the chat server accepts: a dict whose `action` is
      present and truthy. */
  predicate Accepted(msg: Value)
  {
    msg.Object? && "action" in msg.fields && Truthy(msg.fields["action"])
  }

  /** `parse_message` applied to the outcome of `json.loads` (None when
      decoding raised ValueError). A decode error or a falsy `action` gives
      None; a decoded value with no `action` key raises, as subscripting it
      does; anything else is returned unchanged. */
  function ParseMessage(decoded: Option<Value>): (r: Result<Option<Value>, PyError>)
    ensures decoded.None? ==> r == Success(None)
    ensures r.Failure? <==> decoded.Some? && Index(decoded.value, "action").Failure?
    ensures r.Failure? ==> r.error == (if decoded.value.Object? then KeyError else TypeError)
    ensures r.Success? && r.value.Some? <==> decoded.Some? && Accepted(decoded.value)
    ensures r.Success? && r.value.Some? ==> r.value.value == decoded.value
  {
    match decoded
    case None => Success(None)
    case Some(msg) =>
      match Index(msg, "action")
      case Failure(e) => Failure(e)
      case Success(action) => if !Truthy(action) then Success(None) else Success(Some(msg))
  }
}
