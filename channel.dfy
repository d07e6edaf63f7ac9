/** What the backend sends out: Socket.IO emissions, FCM pushes, and HTTP
    responses. Transport is not modelled; every message is appended to a log. */
module Channel {
  import opened JsValue

  /** `io.emit` reaches every connected client, `socket.emit` one socket. */
  datatype Audience = Everyone | ToSocket(socketId: string)

  datatype Message =
    | Emit(to: Audience, event: string, payload: Json)
    | Push(token: Json, kind: string, payload: Json)

  /** An HTTP reply: the status code and the JSON body. */
  datatype Response = Response(status: nat, body: Json)

  /** The messages `sendFcmHighPriority(token, kind, payload)` hands to FCM:
      one high-priority push, or none at all when the token is missing. */
  function FcmSends(token: Json, kind: string, payload: Json): (out: seq<Message>)
    ensures |out| <= 1
    ensures out != [] <==> Truthy(token)
    ensures forall m :: m in out ==> m == Push(token, kind, payload)
  {
    if Truthy(token) then [Push(token, kind, payload)] else []
  }

  /** Every message sent, in order. */
  class Outbox {
    var log: seq<Message>

    constructor ()
      ensures log == []
    {
      log := [];
    }

    method Emit(to: Audience, event: string, payload: Json)
      modifies this
      ensures log == old(log) + [Message.Emit(to, event, payload)]
    {
      log := log + [Message.Emit(to, event, payload)];
    }

    /** `sendFcmHighPriority`: the push happens only when a token is given. */
    method SendFcm(token: Json, kind: string, payload: Json)
      modifies this
      ensures log == old(log) + FcmSends(token, kind, payload)
    {
      if Truthy(token) {
        log := log + [Push(token, kind, payload)];
      }
    }
  }
}
