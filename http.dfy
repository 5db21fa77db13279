/**
  The slice of the serverless request/response interface the handlers use:
  the request's method, query id and body, and a response object whose
  status, headers and sent JSON bodies the handlers change step by step.
 */
module Http {
  import opened Domain

  datatype Request = Request(httpMethod: string, id: Option<string>, body: AccountForm)

  /** The JSON bodies the handlers send. */
  datatype Body =
    | Message(message: string)                             // { message }
    | ErrorDetail(message: string, error: string)          // { message, error }
    | AccountsFetched(message: string, accounts: Payload)  // { message, accounts }
    | AccountSaved(message: string, account: Account)      // { message, account }
    | Deleted(result: DeleteReceipt)                       // the delete service's result as it is
    | Data(data: Payload)                                  // a cached or fetched value as it is

  /** One `json(...)` call: the status in force when it was made and the body. */
  datatype Reply = Reply(status: int, body: Body)

  /** The result of `authenticate(req)` passes the `!userId` guard only when
      it is a non-empty user id. */
  function Authenticated(auth: Option<string>): (ok: bool)
    ensures auth.None? ==> !ok
    ensures auth == Some("") ==> !ok
    ensures auth.Some? && auth.value != "" ==> ok
  {
    auth.Some? && auth.value != ""
  }

  /** The reply a handler sends for a method it does not serve. */
  function NotAllowed(httpMethod: string): (r: Reply)
    ensures r.status == 405
  {
    Reply(405, Message("Method " + httpMethod + " Not Allowed"))
  }

  /** The response object.  Every `json` call is recorded in `sent`, so a
      handler that writes twice leaves two replies. */
  class Res {
    var statusCode: int
    var headers: map<string, seq<string>>
    var sent: seq<Reply>

    constructor ()
      ensures statusCode == 200 && headers == map[] && sent == []
    {
      statusCode := 200;
      headers := map[];
      sent := [];
    }

    /** `res.status(code)`. */
    method Status(code: int)
      modifies this
      ensures statusCode == code
      ensures headers == old(headers) && sent == old(sent)
    {
      statusCode := code;
    }

    /** `res.json(body)`: sends the body with the current status. */
    method Json(body: Body)
      modifies this
      ensures sent == old(sent) + [Reply(old(statusCode), body)]
      ensures statusCode == old(statusCode) && headers == old(headers)
    {
      sent := sent + [Reply(statusCode, body)];
    }

    /** `res.setHeader(name, values)`. */
    method SetHeader(name: string, values: seq<string>)
      modifies this
      ensures headers == old(headers)[name := values]
      ensures statusCode == old(statusCode) && sent == old(sent)
    {
      headers := headers[name := values];
    }

    /** `res.status(code).json(body)`. */
    method Send(code: int, body: Body)
      modifies this
      ensures statusCode == code
      ensures sent == old(sent) + [Reply(code, body)]
      ensures headers == old(headers)
    {
      Status(code);
      Json(body);
    }
  }
}
