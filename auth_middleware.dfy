/**
 * authenticateToken: the session gate in front of the verification routes.
 *
 * The decision is a function of the cookie token, the verifier's verdict and the
 * store; the method applies it to the request (attaching req.user and calling
 * next only on acceptance).
 */
module AuthMiddleware {

  import opened Optional
  import opened Model
  import opened Http

  /** Either the handler chain continues with the attached user, or the gate answers. */
  datatype Gate = Next(user: SessionUser) | Reject(reply: GateReply)

  /** findById(id).select("password"): only the id and the password digest of the found document. */
  function FindWithPassword(accounts: map<Id, Account>, id: Option<Id>): (found: Option<SessionUser>)
    ensures found.Some? <==> id.Some? && id.value in accounts
    ensures found.Some? ==> found.value == SessionUser(id.value, accounts[id.value].password)
  {
    if id.Some? && id.value in accounts then Some(SessionUser(id.value, accounts[id.value].password)) else None
  }

  /** The gate as written: it looks up the payload's userId field. */
  function Authenticate(cookieToken: Option<string>, verdict: Verification, accounts: map<Id, Account>): (g: Gate)
    ensures g.Next? <==>
      !Missing(cookieToken) && verdict.Verified? && verdict.payload.userId.Some? && verdict.payload.userId.value in accounts
    ensures g.Next? ==> g.user == SessionUser(verdict.payload.userId.value, accounts[verdict.payload.userId.value].password)
    ensures g.Reject? ==> !g.reply.success
    ensures g.Reject? && g.reply.status == 500 <==> !Missing(cookieToken) && verdict.OtherError?
    ensures Missing(cookieToken) ==> g == Reject(Denied(401, "auth_error", "Not authorized - token missing"))
    ensures !Missing(cookieToken) && verdict.JsonWebTokenError? ==>
      g == Reject(Denied(401, "auth_error", "Not authorized - invalid token"))
    ensures !Missing(cookieToken) && verdict.TokenExpiredError? ==>
      g == Reject(Denied(401, "auth_error", "Not authorized - token expired"))
    ensures !Missing(cookieToken) && verdict.OtherError? ==>
      g == Reject(Denied(500, "server_error", "Internal Server Error"))
    ensures !Missing(cookieToken) && verdict.Verified? && !g.Next? ==>
      g == Reject(Denied(401, "auth_error", "Not authorized - user not found"))
  {
    if Missing(cookieToken) then
      Reject(Denied(401, "auth_error", "Not authorized - token missing"))
    else
      match verdict
      case JsonWebTokenError => Reject(Denied(401, "auth_error", "Not authorized - invalid token"))
      case TokenExpiredError => Reject(Denied(401, "auth_error", "Not authorized - token expired"))
      case OtherError => Reject(Denied(500, "server_error", "Internal Server Error"))
      case Verified(decoded) =>
        var user := FindWithPassword(accounts, decoded.userId);
        if user.None? then Reject(Denied(401, "auth_error", "Not authorized - user not found"))
        else Next(user.value)
  }

  /** Without a token the gate answers before verifying or looking anything up. */
  lemma MissingTokenDecidedAlone(cookieToken: Option<string>, v1: Verification, v2: Verification,
                                 a1: map<Id, Account>, a2: map<Id, Account>)
    requires Missing(cookieToken)
    ensures Authenticate(cookieToken, v1, a1) == Authenticate(cookieToken, v2, a2)
  {
  }

  /** Apply the gate to a request: on acceptance attach req.user and call next; otherwise send the reply. */
  method AuthenticateToken(req: Request, verdict: Verification, accounts: map<Id, Account>) returns (response: Option<GateReply>)
    modifies req
    ensures var g := Authenticate(old(req.cookieToken), verdict, accounts);
      if g.Next? then
        response == None && req.user == Some(g.user) && req.nextCalled
      else
        response == Some(g.reply) && req.user == old(req.user) && req.nextCalled == old(req.nextCalled)
    ensures req.cookieToken == old(req.cookieToken) && req.body == old(req.body) && req.userId == old(req.userId)
  {
    var g := Authenticate(req.cookieToken, verdict, accounts);
    match g
    case Reject(reply) =>
      response := Some(reply);
    case Next(user) =>
      req.user := Some(user);
      req.nextCalled := true;
      response := None;
  }

  /** As written, a token signed by the auth controller never passes: it carries id, and the gate reads userId. */
  lemma IssuedTokenRejected(cookieToken: Option<string>, id: Id, accounts: map<Id, Account>)
    requires !Missing(cookieToken)
    ensures Authenticate(cookieToken, Verified(IssuedToken(id).claims), accounts)
         == Reject(Denied(401, "auth_error", "Not authorized - user not found"))
  {
  }

  /** The gate with the lookup keyed by the id field the controller signs. */
  function AuthenticateById(cookieToken: Option<string>, verdict: Verification, accounts: map<Id, Account>): (g: Gate)
    ensures g.Next? <==>
      !Missing(cookieToken) && verdict.Verified? && verdict.payload.id.Some? && verdict.payload.id.value in accounts
    ensures g.Next? ==> g.user == SessionUser(verdict.payload.id.value, accounts[verdict.payload.id.value].password)
    ensures g.Reject? ==> !g.reply.success
    ensures !verdict.Verified? || Missing(cookieToken) ==> g == Authenticate(cookieToken, verdict, accounts)
    ensures !Missing(cookieToken) && verdict.Verified? && !g.Next? ==>
      g == Reject(Denied(401, "auth_error", "Not authorized - user not found"))
  {
    if !Missing(cookieToken) && verdict.Verified? then
      var user := FindWithPassword(accounts, verdict.payload.id);
      if user.None? then Reject(Denied(401, "auth_error", "Not authorized - user not found"))
      else Next(user.value)
    else
      Authenticate(cookieToken, verdict, accounts)
  }

  /** With the lookup by id, a token issued for a stored account is accepted and attaches that account. */
  lemma IssuedTokenAccepted(cookieToken: Option<string>, id: Id, accounts: map<Id, Account>)
    requires !Missing(cookieToken) && id in accounts
    ensures AuthenticateById(cookieToken, Verified(IssuedToken(id).claims), accounts)
         == Next(SessionUser(id, accounts[id].password))
  {
  }
}
