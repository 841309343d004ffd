/**
 * `getNetworkErrorInfo` of src/utils/network-utils.ts: the message shown for a failed request,
 * chosen from the error's code, its HTTP status and the message the server sent.
 */
module NetworkUtils {
  import opened Wrappers

  const NoConnectionMessage: string := "Нет подключения к серверу. Проверьте интернет соединение."
  const TimeoutMessage: string := "Превышено время ожидания ответа от сервера."
  const NotFoundMessage: string := "Сервер не найден."
  const UnknownMessage: string := "Неизвестная ошибка сети."

  /** The HTTP response an error may carry: its status and the `message` of its body, each possibly missing. */
  datatype Response = Response(status: Option<int>, message: Option<string>)

  /** The fields of a request error the classifier reads; a missing field is `None`. */
  datatype RequestError = RequestError(code: Option<string>, response: Option<Response>)

  /** `error?.response?.data?.message`, or `None` when any link of the chain is missing. */
  function ServerMessage(e: RequestError): Option<string>
  {
    if e.response.Some? then e.response.value.message else None
  }

  /**
   * `getNetworkErrorInfo(error)`. `None` in stands for a `null` or `undefined` error, whose
   * `error.code` throws; `None` out stands for that `TypeError`.
   */
  function GetNetworkErrorInfo(error: Option<RequestError>): (r: Option<string>)
    ensures r.Some? <==> error.Some?
    ensures r.Some? ==> r.value != ""
    ensures r.Some? ==>
      r.value in {NoConnectionMessage, TimeoutMessage, NotFoundMessage, UnknownMessage} || Some(r.value) == ServerMessage(error.value)
  {
    match error
    case None => None
    case Some(e) =>
      if e.code == Some("NETWORK_ERROR") then Some(NoConnectionMessage)
      else if e.code == Some("ECONNABORTED") then Some(TimeoutMessage)
      else if e.response.Some? && e.response.value.status == Some(404) then Some(NotFoundMessage)
      else
        var message := ServerMessage(e);
        Some(if message.Some? && message.value != "" then message.value else UnknownMessage)
  }

  /**
   * The classification in priority order: the two transport codes win over any response, a 404
   * wins over the server's message, and otherwise the server's message is shown when non-empty.
   */
  lemma ErrorInfoPriority(e: RequestError)
    ensures e.code == Some("NETWORK_ERROR") ==> GetNetworkErrorInfo(Some(e)) == Some(NoConnectionMessage)
    ensures e.code == Some("ECONNABORTED") ==> GetNetworkErrorInfo(Some(e)) == Some(TimeoutMessage)
    ensures e.code != Some("NETWORK_ERROR") && e.code != Some("ECONNABORTED") ==>
      (GetNetworkErrorInfo(Some(e)) == Some(NotFoundMessage) <==>
         (e.response.Some? && e.response.value.status == Some(404)) || ServerMessage(e) == Some(NotFoundMessage))
    ensures e.code != Some("NETWORK_ERROR") && e.code != Some("ECONNABORTED") && !(e.response.Some? && e.response.value.status == Some(404)) ==>
      GetNetworkErrorInfo(Some(e)) == Some(if ServerMessage(e).Some? && ServerMessage(e).value != "" then ServerMessage(e).value else UnknownMessage)
  {
    assert NotFoundMessage != UnknownMessage by {
      assert NotFoundMessage[0] != UnknownMessage[0];
    }
  }

  /** The message a caller sees never depends on the response once the code is a transport code. */
  lemma TransportCodeIgnoresResponse(code: string, a: Option<Response>, b: Option<Response>)
    requires code == "NETWORK_ERROR" || code == "ECONNABORTED"
    ensures GetNetworkErrorInfo(Some(RequestError(Some(code), a))) == GetNetworkErrorInfo(Some(RequestError(Some(code), b)))
  {
  }
}
