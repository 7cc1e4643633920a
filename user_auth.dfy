/**
 * userAuth: the session gate in front of the user-data route. It verifies the
 * cookie token and attaches the payload's id as req.userId; it does not consult
 * the store.
 */
module UserAuth {

  import opened Optional
  import opened Model
  import opened Http

  /** Either the chain continues with req.userId set to the payload's id, or the gate answers. */
  datatype Gate = Next(userId: Option<Id>) | Reject(reply: GateReply)

  function Check(cookieToken: Option<string>, verdict: Verification): (g: Gate)
    ensures g.Next? <==> !Missing(cookieToken) && verdict.Verified?
    ensures g.Next? ==> g.userId == verdict.payload.id
    ensures g.Reject? ==> !g.reply.success
    ensures Missing(cookieToken) ==> g == Reject(Denied(401, "unauthorized", "Not authorized - token missing"))
    ensures !Missing(cookieToken) && !verdict.Verified? ==>
      g == Reject(Denied(500, "auth_middleware_error", "Authentication failed due to a server error"))
  {
    if Missing(cookieToken) then
      Reject(Denied(401, "unauthorized", "Not authorized - token missing"))
    else if verdict.Verified? then
      Next(verdict.payload.id)
    else
      Reject(Denied(500, "auth_middleware_error", "Authentication failed due to a server error"))
  }

  /** An invalid and an expired token get the same 500 reply: this gate has no 401 for a bad token. */
  lemma BadTokensIndistinguishable(cookieToken: Option<string>)
    requires !Missing(cookieToken)
    ensures Check(cookieToken, JsonWebTokenError) == Check(cookieToken, TokenExpiredError) == Check(cookieToken, OtherError)
    ensures Check(cookieToken, TokenExpiredError).reply.status == 500
  {
  }

  /** Apply the gate: on acceptance set req.userId and call next; req.body and req.user are left as they were. */
  method UserAuth(req: Request, verdict: Verification) returns (response: Option<GateReply>)
    modifies req
    ensures var g := Check(old(req.cookieToken), verdict);
      if g.Next? then
        response == None && req.userId == g.userId && req.nextCalled
      else
        response == Some(g.reply) && req.userId == old(req.userId) && req.nextCalled == old(req.nextCalled)
    ensures req.cookieToken == old(req.cookieToken) && req.body == old(req.body) && req.user == old(req.user)
  {
    var g := Check(req.cookieToken, verdict);
    if g.Next? {
      req.userId := g.userId;
      req.nextCalled := true;
      response := None;
    } else {
      response := Some(g.reply);
    }
  }
}
