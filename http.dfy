/**
 * The request as the gates and controllers see it: the cookie token, the JSON body,
 * and the fields a gate attaches before it calls the next handler.
 */
module Http {

  import opened Optional
  import opened Model

  /** JavaScript falsiness of a string field: undefined or the empty string. */
  predicate Missing(f: Option<string>) {
    f.None? || f.value == ""
  }

  /** The body fields the controllers destructure. */
  datatype Body = Body(
    name: Option<string>,
    email: Option<string>,
    password: Option<string>,
    userId: Option<Id>,
    otp: Option<string>)

  /** What authenticateToken attaches as req.user: the document selected with "password" only. */
  datatype SessionUser = SessionUser(id: Id, password: Digest)

  /** A rejection sent by a gate. */
  datatype GateReply = GateReply(status: int, success: bool, errorType: string, message: string)

  function Denied(status: int, errorType: string, message: string): (r: GateReply) {
    GateReply(status, false, errorType, message)
  }

  class Request {
    var cookieToken: Option<string>
    var body: Body
    var user: Option<SessionUser>
    var userId: Option<Id>
    var nextCalled: bool

    constructor (cookieToken: Option<string>, body: Body)
      ensures this.cookieToken == cookieToken && this.body == body
      ensures user == None && userId == None && !nextCalled
    {
      this.cookieToken := cookieToken;
      this.body := body;
      user := None;
      userId := None;
      nextCalled := false;
    }
  }
}
